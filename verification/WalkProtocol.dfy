/** The whole scan of src/core/indexer/WalkScanner.cpp as a step system: any number of workers, any
    schedule, a cancellation at any moment. Each step is one critical section or one system call. */
module WalkProtocol {
  import opened Common
  import opened PathUtils
  import opened WalkTree
  import opened WalkScanner

  /** Where one worker is: between jobs, about to open its directory, reading its listing (what the
      kernel has not returned yet, what it has returned but the loop has not visited), about to push
      a child, about to call Done, or gone. */
  datatype Worker =
    | Waiting
    | Opening(job: Job)
    | Reading(job: Job, unread: set<Path>, batch: seq<Path>)
    | Pushing(job: Job, unread: set<Path>, batch: seq<Path>, child: Job)
    | Finished(job: Job)
    | Quit

  /** History of a directory that was ever handed to the queue: the root it was reached from and
      where it is now. */
  datatype Place = Queued | At(worker: nat) | ChildOf(worker: nat) | Closed

  datatype DirInfo = DirInfo(root: Path, place: Place)

  /** `visited` (the listed paths the workers have looked at) and `info` are history only: no step
      depends on them. */
  datatype State = State(queue: Queue, cancelled: bool, workers: seq<Worker>, emitted: seq<Path>,
                         visited: set<Path>, info: map<Path, DirInfo>)

  datatype Label =
    | Cancel
    | Pop(w: nat)
    | Leave(w: nat)
    | Open(w: nat)
    | Getdents(w: nat, listed: seq<Path>)
    | Stop(w: nat)
    | Visit(w: nat)
    | Push(w: nat)
    | Done(w: nat)

  predicate Holding(worker: Worker) {
    !worker.Waiting? && !worker.Quit?
  }

  ghost function Children(t: Tree, d: Path): set<Path> {
    set p | p in t.fs && HasParent(p) && ParentOf(p) == d
  }

  predicate Enabled(t: Tree, s: State, a: Label) {
    if a.Cancel? then
      !s.cancelled
    else
      a.w < |s.workers| &&
      var worker := s.workers[a.w];
      match a
      case Pop(_) => worker.Waiting? && PopOutcome(s.queue, s.cancelled).Got?
      case Leave(_) => worker.Waiting? && PopOutcome(s.queue, s.cancelled).NoMore?
      case Open(_) => worker.Opening?
      case Getdents(_, listed) =>
        && worker.Reading? && worker.batch == [] && !s.cancelled
        && listed != [] && (forall i, j :: 0 <= i < j < |listed| ==> listed[i] != listed[j])
        && Elements(listed) <= worker.unread
      case Stop(_) => worker.Reading? && worker.batch == [] && (s.cancelled || worker.unread == {})
      case Visit(_) => worker.Reading? && worker.batch != []
      case Push(_) => worker.Pushing?
      case Done(_) => worker.Finished?
  }

  predicate CanOpen(t: Tree, d: Path) {
    d in t.fs && t.fs[d].readable
  }

  function Moved(info: map<Path, DirInfo>, d: Path, place: Place): map<Path, DirInfo> {
    info[d := DirInfo(if d in info then info[d].root else d, place)]
  }

  ghost function Apply(t: Tree, s: State, a: Label): State
    requires Enabled(t, s, a)
  {
    if a.Cancel? then s.(cancelled := true)
    else
      var worker := s.workers[a.w];
      match a
      case Pop(w) =>
        var job := PopOutcome(s.queue, s.cancelled).job;
        s.(queue := AfterPop(s.queue, s.cancelled), workers := s.workers[w := Opening(job)],
           info := Moved(s.info, job.path, At(w)))
      case Leave(w) => s.(workers := s.workers[w := Quit])
      case Open(w) =>
        s.(workers := s.workers[w := if CanOpen(t, worker.job.path)
                                     then Reading(worker.job, Children(t, worker.job.path), [])
                                     else Finished(worker.job)])
      case Getdents(w, listed) =>
        s.(workers := s.workers[w := Reading(worker.job, worker.unread - Elements(listed), listed)])
      case Stop(w) => s.(workers := s.workers[w := Finished(worker.job)])
      case Visit(w) => Visited(t, s, w)
      case Push(w) =>
        s.(queue := Pushed(s.queue, worker.child),
           workers := s.workers[w := Reading(worker.job, worker.unread, worker.batch)],
           info := Moved(s.info, worker.child.path, Queued))
      case Done(w) =>
        s.(queue := AfterDone(s.queue), workers := s.workers[w := Waiting],
           info := Moved(s.info, worker.job.path, Closed))
  }

  /** Once the scan is cancelled no worker takes another job or reads another buffer. */
  lemma CancelledStops(t: Tree, s: State, a: Label)
    requires s.cancelled && Enabled(t, s, a)
    ensures !a.Pop? && !a.Getdents? && Apply(t, s, a).cancelled
  {
    hide EmittedFrom, Queues, Children;
  }

  function RootOf(s: State, d: Path): Path {
    if d in s.info then s.info[d].root else d
  }

  /** One turn of ProcessDirectory's inner loop: what EmittedFrom and QueuedFrom say of one path. */
  ghost function Visited(t: Tree, s: State, w: nat): State
    requires w < |s.workers| && s.workers[w].Reading? && s.workers[w].batch != []
  {
    var worker := s.workers[w];
    var c := worker.batch[0];
    var rest := worker.batch[1..];
    var looked := s.(visited := s.visited + {c}, emitted := s.emitted + EmittedFrom(t, [c]));
    if Queues(t, worker.job, c) then
      looked.(workers := s.workers[w := Pushing(worker.job, worker.unread, rest, ChildJob(t, worker.job, c))],
              info := s.info[c := DirInfo(RootOf(s, worker.job.path), ChildOf(w))])
    else
      looked.(workers := s.workers[w := Reading(worker.job, worker.unread, rest)])
  }

  /** The start: SeedRoots has run and the workers have just been created. */
  ghost predicate Initial(t: Tree, s: State) {
    && s.queue.inFlight == 0 && Seeded(t, s.queue.jobs, s.emitted, |t.roots|)
    && !s.cancelled && s.visited == {}
    && (forall w :: 0 <= w < |s.workers| ==> s.workers[w].Waiting?)
    && s.info == map r | r in t.roots && IsRootDir(t, r) :: DirInfo(r, Queued)
  }

  ghost predicate IsRun(t: Tree, s: State, run: seq<Label>, s': State)
    decreases |run|
  {
    if run == [] then s' == s
    else Enabled(t, s, run[0]) && IsRun(t, Apply(t, s, run[0]), run[1..], s')
  }

  // ----- What every step keeps -----

  ghost predicate NoneVisited(t: Tree, s: State, d: Path) {
    forall c :: c in Children(t, d) ==> c !in s.visited
  }

  ghost predicate AllVisited(t: Tree, s: State, d: Path) {
    !s.cancelled && CanOpen(t, d) ==> forall c :: c in Children(t, d) ==> c in s.visited
  }

  /** The listing in progress splits the children into unread, read and visited ones. */
  ghost predicate Listing(t: Tree, s: State, d: Path, unread: set<Path>, batch: seq<Path>) {
    && CanOpen(t, d)
    && NoDuplicates(batch) && (forall c :: c in batch ==> c !in unread)
    && (forall c :: c in batch || c in unread ==> c in Children(t, d))
    && (forall c :: c in Children(t, d) ==> (c in s.visited <==> c !in unread && c !in batch))
  }

  ghost predicate Progress(t: Tree, s: State, worker: Worker, d: Path) {
    match worker
    case Opening(_) => NoneVisited(t, s, d)
    case Reading(_, unread, batch) => Listing(t, s, d, unread, batch)
    case Pushing(_, unread, batch, _) => Listing(t, s, d, unread, batch)
    case Finished(_) => AllVisited(t, s, d)
    case _ => false
  }

  /** A directory of the walk: its root's device is the boundary its job carries. */
  ghost predicate Walked(t: Tree, r: Path, d: Path) {
    IsRootDir(t, r) && (d == r || (Below(t, r, d) && Descends(t, r, d)))
  }

  ghost predicate PlaceOk(t: Tree, s: State, d: Path)
    requires d in s.info
  {
    var r := s.info[d].root;
    r in t.fs &&
    var job := Job(d, t.fs[r].dev);
    match s.info[d].place
    case Queued => job in s.queue.jobs && NoneVisited(t, s, d)
    case At(w) => w < |s.workers| && Holding(s.workers[w]) && s.workers[w].job == job && Progress(t, s, s.workers[w], d)
    case ChildOf(w) => w < |s.workers| && s.workers[w].Pushing? && s.workers[w].child == job && NoneVisited(t, s, d)
    case Closed => AllVisited(t, s, d)
  }

  ghost predicate DirOk(t: Tree, s: State, d: Path)
    requires d in s.info
  {
    && Walked(t, s.info[d].root, d) && (d == s.info[d].root || d in s.visited)
    && PlaceOk(t, s, d)
  }

  ghost predicate WorkerOk(s: State, w: nat)
    requires w < |s.workers|
  {
    var worker := s.workers[w];
    && (Holding(worker) ==> worker.job.path in s.info && s.info[worker.job.path].place == At(w))
    && (worker.Pushing? ==> worker.child.path in s.info && s.info[worker.child.path].place == ChildOf(w))
  }

  ghost predicate WorkersOk(s: State) {
    forall w {:trigger s.workers[w]} :: 0 <= w < |s.workers| ==> WorkerOk(s, w)
  }

  ghost predicate QueueOk(s: State) {
    && NoDuplicates(Paths(s.queue.jobs))
    && forall j :: j in s.queue.jobs ==> j.path in s.info && s.info[j.path].place == Queued
  }

  ghost predicate VisitedOk(t: Tree, s: State, p: Path) {
    && p in t.fs && HasParent(p) && ParentOf(p) in s.info && CanOpen(t, ParentOf(p))
    && s.info[ParentOf(p)].root in t.fs
    && (Passes(t, p) && Descends(t, s.info[ParentOf(p)].root, p) ==> p in s.info)
  }

  ghost predicate DirsOk(t: Tree, s: State) {
    && (forall d :: d in s.info ==> DirOk(t, s, d))
    && (forall r :: IsRootDir(t, r) ==> r in s.info)
  }

  ghost predicate AllVisitedOk(t: Tree, s: State) {
    forall p :: p in s.visited ==> VisitedOk(t, s, p)
  }

  ghost predicate EmittedOk(t: Tree, s: State) {
    && NoDuplicates(s.emitted)
    && (forall p :: p in s.emitted <==> IsRootFile(t, p) || (p in s.visited && Passes(t, p)))
  }

  /** How many workers have a job in hand. */
  function InHand(workers: seq<Worker>): nat {
    if workers == [] then 0
    else InHand(workers[..|workers| - 1]) + (if Holding(workers[|workers| - 1]) then 1 else 0)
  }

  /** The termination test is sound: in-flight counts the workers with a job in hand, and a worker
      leaves an uncancelled scan only when nothing is queued and nothing is in hand. */
  ghost predicate CountOk(s: State) {
    && s.queue.inFlight == InHand(s.workers)
    && forall w :: 0 <= w < |s.workers| && s.workers[w].Quit? && !s.cancelled ==>
        s.queue.jobs == [] && s.queue.inFlight == 0
  }

  ghost predicate Inv(t: Tree, s: State) {
    && DirsOk(t, s) && AllVisitedOk(t, s)
    && WorkersOk(s)
    && QueueOk(s) && EmittedOk(t, s) && CountOk(s)
  }

  lemma {:induction false} InHandUpdate(workers: seq<Worker>, w: nat, worker: Worker)
    requires w < |workers|
    ensures InHand(workers[w := worker]) == InHand(workers)
      + (if Holding(worker) then 1 else 0) - (if Holding(workers[w]) then 1 else 0)
  {
    var n := |workers| - 1;
    var after := workers[w := worker];
    if w < n {
      InHandUpdate(workers[..n], w, worker);
      assert after[..n] == workers[..n][w := worker];
    } else {
      assert after[..n] == workers[..n];
    }
  }

  lemma {:induction false} NoneInHand(workers: seq<Worker>)
    ensures InHand(workers) == 0 <==> forall w :: 0 <= w < |workers| ==> !Holding(workers[w])
  {
    if workers != [] {
      NoneInHand(workers[..|workers| - 1]);
    }
  }

  /** A step of worker w leaves the walk alone except at the directories in `touched`. */
  ghost predicate Elsewhere(s: State, s': State, w: nat, touched: set<Path>)
    requires w < |s.workers|
  {
    && s'.cancelled == s.cancelled && |s'.workers| == |s.workers|
    && (forall v {:trigger s'.workers[v]} :: 0 <= v < |s.workers| && v != w ==> s'.workers[v] == s.workers[v])
    && s.visited <= s'.visited
    && (forall c :: c in s'.visited && c !in s.visited ==> HasParent(c) && ParentOf(c) in touched)
    && (forall d :: d in s'.info && d !in touched ==> d in s.info && s'.info[d] == s.info[d])
    && (forall d :: d in s.info ==> d in s'.info)
    && (forall d :: d in s.info && d in touched ==> s.info[d].place in {Queued, At(w), ChildOf(w)})
    && (Holding(s.workers[w]) ==> s.workers[w].job.path in touched)
    && (s.workers[w].Pushing? ==> s.workers[w].child.path in touched)
    && (forall j :: j in s.queue.jobs && j.path !in touched ==> j in s'.queue.jobs)
  }

  lemma DirElsewhere(t: Tree, s: State, s': State, w: nat, touched: set<Path>, d: Path)
    requires w < |s.workers| && Elsewhere(s, s', w, touched)
    requires d in s.info && d !in touched && DirOk(t, s, d)
    ensures DirOk(t, s', d)
  {
    hide Below, Passes, Walked, CanOpen, HasParent, ParentOf;
    assert forall c :: c in Children(t, d) ==> (c in s'.visited <==> c in s.visited);
    hide Children;
    var place := s.info[d].place;
    if place.At? || place.ChildOf? {
      assert s'.workers[place.worker] == s.workers[place.worker];
    }
  }

  lemma ElsewhereDomain(s: State, s': State, w: nat, touched: set<Path>)
    requires w < |s.workers| && Elsewhere(s, s', w, touched)
    ensures |s'.workers| == |s.workers|
    ensures forall d :: d in s.info ==> d in s'.info
    ensures forall d :: d in s'.info && d !in touched ==> d in s.info
  {
  }

  /** With the touched directories, worker w and the queue checked, every directory and worker is. */
  lemma FrameKeeps(t: Tree, s: State, s': State, w: nat, touched: set<Path>)
    requires DirsOk(t, s) && WorkersOk(s) && w < |s.workers| && Elsewhere(s, s', w, touched)
    requires forall d :: d in touched && d in s'.info ==> DirOk(t, s', d)
    requires w < |s'.workers| && WorkerOk(s', w)
    ensures DirsOk(t, s') && WorkersOk(s')
  {
    hide Elsewhere, DirOk, WorkerOk, IsRootDir;
    ElsewhereDomain(s, s', w, touched);
    forall d | d in s'.info && d !in touched ensures DirOk(t, s', d) {
      DirElsewhere(t, s, s', w, touched, d);
    }
    forall v | 0 <= v < |s'.workers| && v != w ensures WorkerOk(s', v) {
      assert WorkerOk(s, v) by { var worker := s.workers[v]; }
      WorkerElsewhere(s, s', w, touched, v);
    }
  }

  lemma WorkerElsewhere(s: State, s': State, w: nat, touched: set<Path>, v: nat)
    requires w < |s.workers| && Elsewhere(s, s', w, touched) && v < |s.workers| && v != w && WorkerOk(s, v)
    ensures v < |s'.workers| && WorkerOk(s', v)
  {
    assert s'.workers[v] == s.workers[v];
  }

  /** The pieces of the invariant a step has to re-establish itself. */
  lemma StepKeeps(t: Tree, s: State, s': State, w: nat, touched: set<Path>)
    requires Inv(t, s) && w < |s.workers| && Elsewhere(s, s', w, touched)
    requires forall d :: d in touched && d in s'.info ==> DirOk(t, s', d)
    requires w < |s'.workers| && WorkerOk(s', w)
    requires QueueOk(s') && EmittedOk(t, s') && CountOk(s') && AllVisitedOk(t, s')
    ensures Inv(t, s')
  {
    hide Elsewhere, DirOk, WorkerOk, IsRootDir, WorkersOk, QueueOk, EmittedOk, CountOk, AllVisitedOk, DirsOk;
    FrameKeeps(t, s, s', w, touched);
  }

  /** A step that only moves directories around emits and visits nothing. */
  lemma QuietKeeps(t: Tree, s: State, s': State)
    requires EmittedOk(t, s) && AllVisitedOk(t, s)
    requires s'.emitted == s.emitted && s'.visited == s.visited
    requires forall d :: d in s.info ==> d in s'.info && s'.info[d].root == s.info[d].root
    ensures EmittedOk(t, s') && AllVisitedOk(t, s')
  {
    hide Passes, Descends, CanOpen, HasParent, ParentOf, IsRootFile;
    forall p | p in s'.visited ensures VisitedOk(t, s', p) {
      assert VisitedOk(t, s, p);
    }
  }

  lemma CountKeeps(s: State, s': State, w: nat, worker: Worker)
    requires CountOk(s) && w < |s.workers| && !s.workers[w].Quit?
    requires s'.workers == s.workers[w := worker] && s'.cancelled == s.cancelled
    requires s'.queue.inFlight == s.queue.inFlight
      + (if Holding(worker) then 1 else 0) - (if Holding(s.workers[w]) then 1 else 0)
    requires worker.Quit? && !s.cancelled ==> s.queue.jobs == [] && s.queue.inFlight == 0
    requires !Holding(s.workers[w]) ==> s.queue.jobs != [] || (s'.queue.jobs == [] && !Holding(worker))
    ensures CountOk(s')
  {
    InHandUpdate(s.workers, w, worker);
    NoneInHand(s.workers);
    forall v | 0 <= v < |s'.workers| && s'.workers[v].Quit? && !s'.cancelled
      ensures s'.queue.jobs == [] && s'.queue.inFlight == 0
    {
      if v != w {
        assert s.workers[v].Quit?;
      }
    }
  }

  lemma PopKeeps(t: Tree, s: State, w: nat)
    requires Inv(t, s) && Enabled(t, s, Pop(w))
    ensures Inv(t, Apply(t, s, Pop(w)))
  {
    hide DirsOk, AllVisitedOk, WorkersOk, QueueOk, EmittedOk, CountOk, Below, Passes, Descends, Children, Walked,
      CanOpen, IsRootFile, IsRootDir, HasParent, ParentOf;
    var s' := Apply(t, s, Pop(w));
    var job := s.queue.jobs[0];
    CountKeeps(s, s', w, Opening(job));
    QuietKeeps(t, s, s');
    PopQueue(s, s', job);
    HasDir(t, s, job.path);
    assert Elsewhere(s, s', w, {job.path});
    StepKeeps(t, s, s', w, {job.path});
  }

  lemma HasDir(t: Tree, s: State, d: Path)
    requires DirsOk(t, s) && d in s.info
    ensures DirOk(t, s, d)
  {
  }

  lemma HasWorker(s: State, w: nat)
    requires WorkersOk(s) && w < |s.workers|
    ensures WorkerOk(s, w)
  {
    var worker := s.workers[w];
  }

  lemma PopQueue(s: State, s': State, job: Job)
    requires QueueOk(s) && s.queue.jobs != [] && job == s.queue.jobs[0] && s'.queue.jobs == s.queue.jobs[1..]
    requires forall d :: d in s.info && d != job.path ==> d in s'.info && s'.info[d] == s.info[d]
    ensures QueueOk(s') && job.path in s.info && s.info[job.path].place.Queued?
  {
    assert Paths(s'.queue.jobs) == Paths(s.queue.jobs)[1..];
    assert Paths(s.queue.jobs)[0] == job.path;
    forall j | j in s'.queue.jobs ensures j in s.queue.jobs && j.path != job.path {
      var i :| 0 <= i < |s'.queue.jobs| && s'.queue.jobs[i] == j;
      assert Paths(s.queue.jobs)[i + 1] == j.path;
    }
  }

  lemma SameQueue(s: State, s': State)
    requires QueueOk(s) && s'.queue.jobs == s.queue.jobs
    requires forall d :: d in s.info && s.info[d].place.Queued? ==> d in s'.info && s'.info[d] == s.info[d]
    ensures QueueOk(s')
  {
  }

  lemma LeaveKeeps(t: Tree, s: State, w: nat)
    requires Inv(t, s) && Enabled(t, s, Leave(w))
    ensures Inv(t, Apply(t, s, Leave(w)))
  {
    hide DirsOk, AllVisitedOk, WorkersOk, QueueOk, EmittedOk, CountOk, DirOk;
    var s' := Apply(t, s, Leave(w));
    CountKeeps(s, s', w, Quit);
    QuietKeeps(t, s, s');
    SameQueue(s, s');
    assert Elsewhere(s, s', w, {});
    StepKeeps(t, s, s', w, {});
  }

  /** A step that only changes what worker w, holding directory d, is doing. */
  lemma WorkerKeeps(t: Tree, s: State, s': State, w: nat, worker: Worker)
    requires Inv(t, s) && w < |s.workers| && s' == s.(workers := s.workers[w := worker])
    requires Holding(s.workers[w]) && !s.workers[w].Pushing? && !worker.Pushing?
    requires Holding(worker) && worker.job == s.workers[w].job
    requires var d := worker.job.path; Progress(t, s, s.workers[w], d) ==> Progress(t, s', worker, d)
    ensures Inv(t, s')
  {
    hide DirsOk, AllVisitedOk, WorkersOk, QueueOk, EmittedOk, CountOk, Walked, Progress, NoneVisited, AllVisited;
    var d := worker.job.path;
    HasWorker(s, w);
    CountKeeps(s, s', w, worker);
    QuietKeeps(t, s, s');
    SameQueue(s, s');
    HasDir(t, s, d);
    assert DirOk(t, s', d);
    assert Elsewhere(s, s', w, {d});
    StepKeeps(t, s, s', w, {d});
  }

  lemma OpenKeeps(t: Tree, s: State, w: nat)
    requires Inv(t, s) && Enabled(t, s, Open(w))
    ensures Inv(t, Apply(t, s, Open(w)))
  {
    hide Inv, HasParent, ParentOf;
    var s' := Apply(t, s, Open(w));
    WorkerKeeps(t, s, s', w, s'.workers[w]);
  }

  lemma GetdentsKeeps(t: Tree, s: State, w: nat, listed: seq<Path>)
    requires Inv(t, s) && Enabled(t, s, Getdents(w, listed))
    ensures Inv(t, Apply(t, s, Getdents(w, listed)))
  {
    hide Inv, HasParent, ParentOf;
    var s' := Apply(t, s, Getdents(w, listed));
    WorkerKeeps(t, s, s', w, s'.workers[w]);
  }

  lemma StopKeeps(t: Tree, s: State, w: nat)
    requires Inv(t, s) && Enabled(t, s, Stop(w))
    ensures Inv(t, Apply(t, s, Stop(w)))
  {
    hide Inv, HasParent, ParentOf;
    var s' := Apply(t, s, Stop(w));
    WorkerKeeps(t, s, s', w, s'.workers[w]);
  }

  lemma PushQueue(s: State, s': State, job: Job)
    requires QueueOk(s) && s'.queue.jobs == s.queue.jobs + [job]
    requires job.path in s.info && !s.info[job.path].place.Queued?
    requires s'.info == Moved(s.info, job.path, Queued)
    ensures QueueOk(s')
  {
    assert Paths(s'.queue.jobs) == Paths(s.queue.jobs) + [job.path];
    forall i | 0 <= i < |s.queue.jobs| ensures Paths(s.queue.jobs)[i] != job.path {
      assert s.queue.jobs[i] in s.queue.jobs;
    }
  }

  lemma PushKeeps(t: Tree, s: State, w: nat)
    requires Inv(t, s) && Enabled(t, s, Push(w))
    ensures Inv(t, Apply(t, s, Push(w)))
  {
    hide DirsOk, AllVisitedOk, WorkersOk, QueueOk, EmittedOk, CountOk, Walked, NoneVisited, Listing;
    var s' := Apply(t, s, Push(w));
    var d, c := s.workers[w].job.path, s.workers[w].child.path;
    HasWorker(s, w);
    CountKeeps(s, s', w, s'.workers[w]);
    QuietKeeps(t, s, s');
    PushQueue(s, s', s.workers[w].child);
    HasDir(t, s, d);
    HasDir(t, s, c);
    assert DirOk(t, s', d) && DirOk(t, s', c) by {
      SameVisited(t, s, s', d);
      SameVisited(t, s, s', c);
    }
    assert Elsewhere(s, s', w, {d, c});
    StepKeeps(t, s, s', w, {d, c});
  }

  lemma SameVisited(t: Tree, s: State, s': State, d: Path)
    requires s'.visited == s.visited && s'.cancelled == s.cancelled
    ensures NoneVisited(t, s, d) ==> NoneVisited(t, s', d)
    ensures AllVisited(t, s, d) ==> AllVisited(t, s', d)
    ensures forall unread, batch :: Listing(t, s, d, unread, batch) ==> Listing(t, s', d, unread, batch)
  {
  }

  lemma DoneKeeps(t: Tree, s: State, w: nat)
    requires Inv(t, s) && Enabled(t, s, Done(w))
    ensures Inv(t, Apply(t, s, Done(w)))
  {
    hide DirsOk, AllVisitedOk, WorkersOk, QueueOk, EmittedOk, CountOk, Walked, NoneVisited, AllVisited, Listing;
    var s' := Apply(t, s, Done(w));
    var d := s.workers[w].job.path;
    HasWorker(s, w);
    CountKeeps(s, s', w, Waiting);
    QuietKeeps(t, s, s');
    SameQueue(s, s');
    HasDir(t, s, d);
    assert DirOk(t, s', d) by {
      SameVisited(t, s, s', d);
    }
    assert Elsewhere(s, s', w, {d});
    StepKeeps(t, s, s', w, {d});
  }

  // ----- The step that visits a path -----

  /** The next path of a listing: new to the walk, never a root, and not yet a directory of the walk. */
  lemma NextIsNew(t: Tree, s: State, w: nat)
    requires Antichain(t.roots) && DirsOk(t, s) && AllVisitedOk(t, s) && WorkersOk(s) && Enabled(t, s, Visit(w))
    ensures var d, c := s.workers[w].job.path, s.workers[w].batch[0];
      && d in s.info && s.info[d].root in t.fs
      && c in t.fs && HasParent(c) && ParentOf(c) == d && CanOpen(t, d) && d != c
      && c !in s.visited && NoneVisited(t, s, c)
      && c !in s.info && (Passes(t, c) ==> Below(t, s.info[d].root, c) && c !in t.roots)
  {
    var worker := s.workers[w];
    var d, c := worker.job.path, worker.batch[0];
    HasWorker(s, w);
    HasDir(t, s, d);
    assert Listing(t, s, d, worker.unread, worker.batch);
    assert c in worker.batch && c in Children(t, d);
    var r := s.info[d].root;
    hide Passes, WorkersOk, DirOk, NoneVisited;
    if Passes(t, c) {
      assert Below(t, r, c);
      NoRootBelowRoot(t, r, c);
    }
    assert c !in s.info by {
      if c in s.info {
        HasDir(t, s, c);
        RootOrVisited(t, s, c);
      }
    }
    UnseenDir(t, s, c);
  }

  lemma UnseenDir(t: Tree, s: State, c: Path)
    requires AllVisitedOk(t, s) && c !in s.info
    ensures NoneVisited(t, s, c)
  {
    forall x | x in Children(t, c) ensures x !in s.visited {
      assert x in s.visited ==> VisitedOk(t, s, x);
    }
  }

  lemma RootOrVisited(t: Tree, s: State, d: Path)
    requires d in s.info && DirOk(t, s, d)
    ensures d in s.visited || (d == s.info[d].root && IsRootDir(t, d))
  {
  }

  lemma VisitDirs(t: Tree, s: State, w: nat)
    requires Antichain(t.roots) && Inv(t, s) && Enabled(t, s, Visit(w))
    ensures var d, s' := s.workers[w].job.path, Visited(t, s, w);
      && d in s.info && d in s'.info && s'.info[d] == s.info[d] && DirOk(t, s', d)
  {
    hide AllVisitedOk, QueueOk, EmittedOk, CountOk, Walked, NoneVisited, CanOpen, EmittedFrom;
    HasWorker(s, w);
    NextIsNew(t, s, w);
    HasDir(t, s, s.workers[w].job.path);
    hide DirsOk, WorkersOk, HasParent, ParentOf, Queues;
    var worker := s.workers[w];
    var s' := Visited(t, s, w);
    assert Listing(t, s, worker.job.path, worker.unread, worker.batch);
    assert Listing(t, s', worker.job.path, worker.unread, worker.batch[1..]) by {
      assert worker.batch == [worker.batch[0]] + worker.batch[1..];
    }
  }

  /** Below a collapsed root, exactly the directories on the root's device are queued, and each job
      carries that device. */
  lemma ChildWalked(t: Tree, r: Path, job: Job, c: Path)
    requires IsRootDir(t, r) && job.allowedDev == t.fs[r].dev
    requires Passes(t, c) ==> Below(t, r, c) && c !in t.roots
    ensures Queues(t, job, c) <==> Passes(t, c) && Descends(t, r, c)
    ensures Queues(t, job, c) ==> Walked(t, r, c) && ChildJob(t, job, c) == Job(c, t.fs[r].dev)
  {
  }

  lemma VisitChild(t: Tree, s: State, w: nat)
    requires Antichain(t.roots) && Inv(t, s) && Enabled(t, s, Visit(w))
    ensures var c, s' := s.workers[w].batch[0], Visited(t, s, w);
      && (c in s'.info ==> DirOk(t, s', c)) && VisitedOk(t, s', c)
  {
    hide DirsOk, WorkersOk, AllVisitedOk, QueueOk, EmittedOk, CountOk, EmittedFrom, HasParent, ParentOf, Below,
      IsRootDir, Passes;
    HasWorker(s, w);
    NextIsNew(t, s, w);
    var job, c := s.workers[w].job, s.workers[w].batch[0];
    var d := job.path;
    var r := s.info[d].root;
    HasDir(t, s, d);
    ChildWalked(t, r, job, c);
    hide Walked, Queues, Descends, CanOpen;
    NoneVisitedYet(t, s, Visited(t, s, w), c);
    hide NoneVisited;
  }

  lemma NoneVisitedYet(t: Tree, s: State, s': State, c: Path)
    requires NoneVisited(t, s, c) && s'.visited == s.visited + {c}
    ensures NoneVisited(t, s', c)
  {
    assert c !in Children(t, c);
  }

  lemma VisitEmits(t: Tree, s: State, w: nat)
    requires Antichain(t.roots) && Inv(t, s) && Enabled(t, s, Visit(w))
    ensures EmittedOk(t, Visited(t, s, w))
  {
    hide DirsOk, WorkersOk, AllVisitedOk, QueueOk, CountOk, HasParent, ParentOf, Below, IsRootDir, NoneVisited,
      Passes, Queues;
    NextIsNew(t, s, w);
    var c, s' := s.workers[w].batch[0], Visited(t, s, w);
    assert EmittedFrom(t, [c]) == if Passes(t, c) then [c] else [];
    assert s'.emitted == s.emitted + EmittedFrom(t, [c]) && s'.visited == s.visited + {c};
  }

  lemma VisitOthers(t: Tree, s: State, w: nat)
    requires Antichain(t.roots) && Inv(t, s) && Enabled(t, s, Visit(w))
    ensures AllVisitedOk(t, Visited(t, s, w))
  {
    hide DirsOk, WorkersOk, QueueOk, EmittedOk, CountOk, EmittedFrom, HasParent, ParentOf, Below, NoneVisited, Passes,
      Queues, Descends;
    NextIsNew(t, s, w);
    VisitChild(t, s, w);
    var c, s' := s.workers[w].batch[0], Visited(t, s, w);
    hide DirOk;
    forall p | p in s'.visited ensures VisitedOk(t, s', p) {
      assert p != c ==> VisitedOk(t, s, p);
    }
  }

  lemma VisitKeeps(t: Tree, s: State, w: nat)
    requires Antichain(t.roots) && Inv(t, s) && Enabled(t, s, Visit(w))
    ensures Inv(t, Apply(t, s, Visit(w)))
  {
    hide DirsOk, WorkersOk, AllVisitedOk, QueueOk, EmittedOk, CountOk, EmittedFrom, HasParent, ParentOf, Below,
      NoneVisited, Passes, Queues;
    NextIsNew(t, s, w);
    VisitChild(t, s, w);
    VisitDirs(t, s, w);
    VisitEmits(t, s, w);
    VisitOthers(t, s, w);
    HasWorker(s, w);
    hide DirOk;
    var d, c, s' := s.workers[w].job.path, s.workers[w].batch[0], Apply(t, s, Visit(w));
    CountKeeps(s, s', w, s'.workers[w]);
    SameQueue(s, s');
    assert Elsewhere(s, s', w, {d, c});
    StepKeeps(t, s, s', w, {d, c});
  }

  lemma CancelKeeps(t: Tree, s: State)
    requires Inv(t, s)
    ensures Inv(t, s.(cancelled := true))
  {
    hide Walked, Passes, HasParent, ParentOf, CanOpen, IsRootDir, IsRootFile, Children;
    var s' := s.(cancelled := true);
    forall d | d in s'.info ensures DirOk(t, s', d) {
      assert DirOk(t, s, d);
    }
    hide DirOk;
    QuietKeeps(t, s, s');
    SameQueue(s, s');
    forall w | 0 <= w < |s'.workers| ensures WorkerOk(s', w) {
      HasWorker(s, w);
    }
  }

  // ----- All runs -----

  lemma StepInv(t: Tree, s: State, a: Label)
    requires Antichain(t.roots) && Inv(t, s) && Enabled(t, s, a)
    ensures Inv(t, Apply(t, s, a))
  {
    hide Inv;
    match a
    case Cancel => CancelKeeps(t, s);
    case Pop(w) => PopKeeps(t, s, w);
    case Leave(w) => LeaveKeeps(t, s, w);
    case Open(w) => OpenKeeps(t, s, w);
    case Getdents(w, listed) => GetdentsKeeps(t, s, w, listed);
    case Stop(w) => StopKeeps(t, s, w);
    case Visit(w) => VisitKeeps(t, s, w);
    case Push(w) => PushKeeps(t, s, w);
    case Done(w) => DoneKeeps(t, s, w);
  }

  lemma InitialInv(t: Tree, s: State)
    requires Initial(t, s)
    ensures Inv(t, s)
  {
    hide Excluded, HasParent, ParentOf, CanOpen, Children;
    assert t.roots[..|t.roots|] == t.roots;
    NoneInHand(s.workers);
    forall d | d in s.info ensures DirOk(t, s, d) {
      assert IsRootDir(t, d) && d in Paths(s.queue.jobs);
      var i :| 0 <= i < |s.queue.jobs| && s.queue.jobs[i].path == d;
      assert s.queue.jobs[i] in s.queue.jobs && s.queue.jobs[i] == Job(d, t.fs[d].dev);
    }
    forall j | j in s.queue.jobs ensures j.path in s.info && s.info[j.path].place == Queued {
      assert IsRootDir(t, j.path);
    }
    assert EmittedOk(t, s);
    assert WorkersOk(s) by {
      forall w | 0 <= w < |s.workers| ensures WorkerOk(s, w) {
      }
    }
  }

  lemma {:induction false} RunInv(t: Tree, s: State, run: seq<Label>, s': State)
    requires Antichain(t.roots) && Inv(t, s) && IsRun(t, s, run, s')
    ensures Inv(t, s')
    decreases |run|
  {
    hide Inv, Enabled, Apply;
    if run != [] {
      StepInv(t, s, run[0]);
      RunInv(t, Apply(t, s, run[0]), run[1..], s');
    }
  }

  /** Every worker has returned from its loop. */
  predicate Joined(s: State) {
    forall w :: 0 <= w < |s.workers| ==> s.workers[w].Quit?
  }

  /** Nothing is queued when an uncancelled scan ends, so every directory of the walk is closed. */
  lemma JoinedClosed(t: Tree, s: State, d: Path)
    requires Inv(t, s) && Joined(s) && |s.workers| > 0 && !s.cancelled && d in s.info
    ensures Walked(t, s.info[d].root, d) && AllVisited(t, s, d)
  {
    hide Walked, AllVisited, NoneVisited, Listing;
    HasDir(t, s, d);
    assert s.workers[0].Quit?;
  }

  /** In an uncancelled finished scan every path below a directory root has been visited. */
  lemma {:induction false} AllBelowVisited(t: Tree, s: State, r: Path, p: Path)
    requires Antichain(t.roots) && Inv(t, s) && Joined(s) && |s.workers| > 0 && !s.cancelled
    requires IsRootDir(t, r) && Below(t, r, p)
    ensures p in s.visited
    decreases |p|
  {
    hide DirsOk, WorkersOk, QueueOk, EmittedOk, CountOk, HasParent, ParentOf, Below, Excluded, Joined;
    BelowStep(t, r, p);
    var d := ParentOf(p);
    if d != r {
      AllBelowVisited(t, s, r, d);
      assert VisitedOk(t, s, d);
      RootsAgree(t, s, r, d);
    } else {
      RootKnown(t, s, r);
    }
    JoinedClosed(t, s, d);
  }

  lemma BelowStep(t: Tree, r: Path, p: Path)
    requires r in t.fs && Below(t, r, p)
    ensures HasParent(p) && CanOpen(t, ParentOf(p)) && p in Children(t, ParentOf(p)) && |ParentOf(p)| < |p|
    ensures ParentOf(p) == r || (Below(t, r, ParentOf(p)) && Descends(t, r, ParentOf(p)) && Passes(t, ParentOf(p)))
  {
  }

  lemma RootKnown(t: Tree, s: State, r: Path)
    requires DirsOk(t, s) && IsRootDir(t, r)
    ensures r in s.info
  {
  }

  lemma RootsAgree(t: Tree, s: State, r: Path, d: Path)
    requires Antichain(t.roots) && Inv(t, s) && d in s.visited
    requires IsRootDir(t, r) && Below(t, r, d)
    ensures HasParent(d) && ParentOf(d) in s.info && s.info[ParentOf(d)].root == r
  {
    assert VisitedOk(t, s, d);
    var u := ParentOf(d);
    HasDir(t, s, u);
    var q := s.info[u].root;
    hide WorkersOk, QueueOk, EmittedOk, CountOk, HasParent, ParentOf, PlaceOk, IsRootDir;
    assert Walked(t, q, u);
    assert Below(t, q, d);
    OneRootAbove(t, r, q, d);
  }

  /** Main theorem: with at least one worker, a scan that ends without having been cancelled has
      emitted exactly the paths it must, each once; a cancelled one a subset, each at most once. */
  lemma ScanExact(t: Tree, start: State, run: seq<Label>, end: State)
    requires Antichain(t.roots) && Initial(t, start) && |start.workers| > 0
    requires IsRun(t, start, run, end) && Joined(end)
    ensures NoDuplicates(end.emitted)
    ensures forall p :: p in end.emitted ==> InScan(t, p)
    ensures !end.cancelled ==> forall p :: p in end.emitted <==> InScan(t, p)
  {
    hide Initial, Inv, IsRun, HasParent, ParentOf, Below, Excluded, IsRootFile, Joined;
    InitialInv(t, start);
    RunInv(t, start, run, end);
    RunWorkers(t, start, run, end);
    EmittedInScan(t, end);
    if !end.cancelled {
      forall p | InScan(t, p) ensures p in end.emitted {
        if !IsRootFile(t, p) {
          var r :| IsRootDir(t, r) && Below(t, r, p);
          AllBelowVisited(t, end, r, p);
          VisitedEmitted(t, end, r, p);
        } else {
          RootFileEmitted(t, end, p);
        }
      }
    }
  }

  lemma VisitedEmitted(t: Tree, s: State, r: Path, p: Path)
    requires Inv(t, s) && p in s.visited && IsRootDir(t, r) && Below(t, r, p)
    ensures p in s.emitted
  {
    hide WorkersOk, QueueOk, CountOk, HasParent, ParentOf, DirsOk;
    BelowPasses(t, r, p);
  }

  lemma RootFileEmitted(t: Tree, s: State, p: Path)
    requires Inv(t, s) && IsRootFile(t, p)
    ensures p in s.emitted
  {
  }

  lemma BelowPasses(t: Tree, r: Path, p: Path)
    requires r in t.fs && Below(t, r, p)
    ensures Passes(t, p)
  {
  }

  /** At every moment, what has been emitted is emitted once and belongs to the scan. */
  lemma EmittedInScan(t: Tree, s: State)
    requires Inv(t, s)
    ensures NoDuplicates(s.emitted) && forall p :: p in s.emitted ==> InScan(t, p)
  {
    hide WorkersOk, QueueOk, CountOk, HasParent, ParentOf, PlaceOk;
    forall p | p in s.emitted ensures InScan(t, p) {
      if !IsRootFile(t, p) {
        assert VisitedOk(t, s, p);
        HasDir(t, s, ParentOf(p));
        assert Below(t, s.info[ParentOf(p)].root, p);
      }
    }
  }

  lemma {:induction false} RunWorkers(t: Tree, s: State, run: seq<Label>, s': State)
    requires IsRun(t, s, run, s')
    ensures |s'.workers| == |s.workers|
    decreases |run|
  {
    if run != [] {
      RunWorkers(t, Apply(t, s, run[0]), run[1..], s');
    }
  }

  /** No worker leaves an uncancelled scan while a job is queued or in some worker's hands. */
  lemma NoEarlyQuit(t: Tree, s: State, w: nat)
    requires Inv(t, s) && w < |s.workers| && s.workers[w].Quit? && !s.cancelled
    ensures s.queue.jobs == [] && forall v :: 0 <= v < |s.workers| ==> !Holding(s.workers[v])
  {
    hide DirsOk, AllVisitedOk, QueueOk, EmittedOk, WorkersOk;
    NoneInHand(s.workers);
  }

  /** No deadlock: until every worker has left, some step other than a cancellation can be taken. */
  lemma Progresses(t: Tree, s: State) returns (a: Label)
    requires Inv(t, s) && !Joined(s)
    ensures Enabled(t, s, a) && !a.Cancel?
  {
    hide DirsOk, AllVisitedOk, QueueOk, EmittedOk, WorkersOk;
    if w: nat :| w < |s.workers| && Holding(s.workers[w]) {
      var worker := s.workers[w];
      if worker.Opening? {
        a := Open(w);
      } else if worker.Pushing? {
        a := Push(w);
      } else if worker.Finished? {
        a := Done(w);
      } else if worker.batch != [] {
        a := Visit(w);
      } else if s.cancelled || worker.unread == {} {
        a := Stop(w);
      } else {
        var c :| c in worker.unread;
        a := Getdents(w, [c]);
      }
    } else {
      var w: nat :| w < |s.workers| && !s.workers[w].Quit?;
      NoneInHand(s.workers);
      a := if PopOutcome(s.queue, s.cancelled).Got? then Pop(w) else Leave(w);
    }
  }

  // ----- Termination -----

  function Phase(worker: Worker): nat {
    match worker
    case Quit => 0
    case Waiting => 1
    case Finished(_) => 2
    case Reading(_, _, batch) => if batch == [] then 4 else 3
    case Opening(_) => 5
    case Pushing(_, _, _, _) => 12
  }

  function Phases(workers: seq<Worker>): nat {
    if workers == [] then 0 else Phases(workers[..|workers| - 1]) + Phase(workers[|workers| - 1])
  }

  /** Steps still possible: unvisited paths, queued jobs, and where each worker is. */
  ghost function Measure(t: Tree, s: State): nat {
    (if s.cancelled then 0 else 1) + 10 * |t.fs.Keys - s.visited| + 7 * |s.queue.jobs| + Phases(s.workers)
  }

  lemma {:induction false} PhasesUpdate(workers: seq<Worker>, w: nat, worker: Worker)
    requires w < |workers|
    ensures Phases(workers[w := worker]) == Phases(workers) + Phase(worker) - Phase(workers[w])
  {
    var n := |workers| - 1;
    var after := workers[w := worker];
    if w < n {
      PhasesUpdate(workers[..n], w, worker);
      assert after[..n] == workers[..n][w := worker];
    } else {
      assert after[..n] == workers[..n];
    }
  }

  /** Every step, of any worker, uses up part of the measure. */
  lemma StepDecreases(t: Tree, s: State, a: Label)
    requires Antichain(t.roots) && Inv(t, s) && Enabled(t, s, a)
    ensures Measure(t, Apply(t, s, a)) < Measure(t, s)
  {
    hide Inv, Phases, Phase, Visited, Apply, Enabled;
    if a.Cancel? {
      CancelMoves(t, s);
    } else {
      WorkerMoves(t, s, a);
      PhasesUpdate(s.workers, a.w, Apply(t, s, a).workers[a.w]);
      if a.Visit? {
        VisitedShrinks(t, s, a.w);
      }
    }
  }

  lemma CancelMoves(t: Tree, s: State)
    requires Enabled(t, s, Cancel)
    ensures Apply(t, s, Cancel) == s.(cancelled := true) && !s.cancelled
  {
  }

  lemma WorkerMoves(t: Tree, s: State, a: Label)
    requires Enabled(t, s, a) && !a.Cancel?
    ensures a.w < |s.workers| == |Apply(t, s, a).workers|
    ensures var s' := Apply(t, s, a);
      && s'.cancelled == s.cancelled && s'.workers == s.workers[a.w := s'.workers[a.w]]
      && (a.Visit? ==> s'.visited == Visited(t, s, a.w).visited) && (!a.Visit? ==> s'.visited == s.visited)
      && 7 * |s'.queue.jobs| + Phase(s'.workers[a.w])
          < 7 * |s.queue.jobs| + Phase(s.workers[a.w]) + (if a.Visit? then 10 else 0)
  {
  }

  lemma VisitedShrinks(t: Tree, s: State, w: nat)
    requires Antichain(t.roots) && Inv(t, s) && Enabled(t, s, Visit(w))
    ensures |t.fs.Keys - Visited(t, s, w).visited| == |t.fs.Keys - s.visited| - 1
  {
    hide DirsOk, AllVisitedOk, WorkersOk, QueueOk, EmittedOk, CountOk, HasParent, ParentOf, Passes, Below, Queues,
      EmittedFrom, NoneVisited;
    NextIsNew(t, s, w);
    var c := s.workers[w].batch[0];
    assert t.fs.Keys - Visited(t, s, w).visited == (t.fs.Keys - s.visited) - {c};
  }

  /** Every run is finite: its length is at most the measure of the state it starts in. */
  lemma {:induction false} RunBounded(t: Tree, s: State, run: seq<Label>, s': State)
    requires Antichain(t.roots) && Inv(t, s) && IsRun(t, s, run, s')
    ensures |run| + Measure(t, s') <= Measure(t, s)
    decreases |run|
  {
    hide Inv, Enabled, Apply, Measure;
    if run != [] {
      StepInv(t, s, run[0]);
      StepDecreases(t, s, run[0]);
      RunBounded(t, Apply(t, s, run[0]), run[1..], s');
    }
  }

  lemma {:induction false} WaitingPhases(workers: seq<Worker>)
    requires forall w :: 0 <= w < |workers| ==> workers[w].Waiting?
    ensures Phases(workers) == |workers|
  {
    if workers != [] {
      WaitingPhases(workers[..|workers| - 1]);
    }
  }

  /** A scan takes at most ten steps per path of the tree, seven per root, one per worker and one
      for a cancellation. */
  lemma ScanBounded(t: Tree, start: State, run: seq<Label>, end: State)
    requires Antichain(t.roots) && Initial(t, start) && IsRun(t, start, run, end)
    ensures |run| <= 1 + 10 * |t.fs| + 7 * |t.roots| + |start.workers|
  {
    InitialInv(t, start);
    RunBounded(t, start, run, end);
    WaitingPhases(start.workers);
    assert t.fs.Keys - start.visited == t.fs.Keys;
    var paths := Paths(start.queue.jobs);
    SubsetLength(paths, t.roots);
  }

  lemma {:induction false} SubsetLength(s: seq<Path>, all: seq<Path>)
    requires NoDuplicates(s) && forall p :: p in s ==> p in all
    ensures |s| <= |all|
  {
    if s != [] {
      var n := |s| - 1;
      assert s[n] in all;
      var i :| 0 <= i < |all| && all[i] == s[n];
      forall p | p in s[..n] ensures p in all[..i] + all[i + 1..] {
        assert p in s;
        var k :| 0 <= k < |all| && all[k] == p;
        assert p == (all[..i] + all[i + 1..])[if k < i then k else k - 1];
      }
      SubsetLength(s[..n], all[..i] + all[i + 1..]);
    }
  }

  lemma AppliedCancel(t: Tree, s: State, a: Label)
    requires Enabled(t, s, a) && !a.Cancel?
    ensures Apply(t, s, a).cancelled == s.cancelled
  {
  }

  /** From any reachable state, a scan nobody cancels can be carried to its end. */
  lemma {:induction false} CanFinish(t: Tree, s: State) returns (run: seq<Label>, end: State)
    requires Antichain(t.roots) && Inv(t, s)
    ensures IsRun(t, s, run, end) && Joined(end) && end.cancelled == s.cancelled
    decreases Measure(t, s)
  {
    hide Inv, Joined, Measure, Enabled, Apply;
    if Joined(s) {
      return [], s;
    }
    var a := Progresses(t, s);
    StepInv(t, s, a);
    StepDecreases(t, s, a);
    var rest;
    rest, end := CanFinish(t, Apply(t, s, a));
    run := [a] + rest;
    assert run[1..] == rest;
    AppliedCancel(t, s, a);
  }
}
