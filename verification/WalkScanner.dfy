/** The imperative pieces of src/core/indexer/WalkScanner.cpp: the shared directory queue, the loop
    over the roots and the loop over one directory's listing. */
module WalkScanner {
  import opened Common
  import opened PathUtils
  import opened WalkTree

  // ----- DirectoryQueue -----

  datatype Job = Job(path: Path, allowedDev: nat)

  datatype Queue = Queue(jobs: seq<Job>, inFlight: int)

  /** One pass through Pop's loop: a job, the order to stop, or nothing yet (the caller waits). */
  datatype Popped = Got(job: Job) | NoMore | NothingYet

  function Pushed(q: Queue, job: Job): Queue {
    q.(jobs := q.jobs + [job])
  }

  function PopOutcome(q: Queue, cancelled: bool): Popped {
    if cancelled then NoMore
    else if q.jobs != [] then Got(q.jobs[0])
    else if q.inFlight == 0 then NoMore
    else NothingYet
  }

  function AfterPop(q: Queue, cancelled: bool): Queue {
    if PopOutcome(q, cancelled).Got? then Queue(q.jobs[1..], q.inFlight + 1) else q
  }

  function AfterDone(q: Queue): Queue {
    q.(inFlight := q.inFlight - 1)
  }

  class DirectoryQueue {
    var jobs: seq<Job>
    var inFlight: int

    ghost function Contents(): Queue
      reads this
    {
      Queue(jobs, inFlight)
    }

    constructor ()
      ensures Contents() == Queue([], 0)
    {
      jobs, inFlight := [], 0;
    }

    method Push(job: Job)
      modifies this
      ensures Contents() == Pushed(old(Contents()), job)
      ensures jobs == old(jobs) + [job] && inFlight == old(inFlight)
    {
      jobs := jobs + [job];
    }

    method Pop(cancelled: bool) returns (r: Popped)
      modifies this
      ensures r == PopOutcome(old(Contents()), cancelled)
      ensures Contents() == AfterPop(old(Contents()), cancelled)
      ensures cancelled ==> r == NoMore
      ensures !cancelled ==> (r.Got? <==> old(jobs) != []) && (r == NoMore <==> old(jobs) == [] && old(inFlight) == 0)
      ensures r.Got? ==> [r.job] + jobs == old(jobs) && inFlight == old(inFlight) + 1
      ensures !r.Got? ==> Contents() == old(Contents())
    {
      if cancelled {
        return NoMore;
      }
      if jobs != [] {
        r := Got(jobs[0]);
        jobs := jobs[1..];
        inFlight := inFlight + 1;
        return;
      }
      return if inFlight == 0 then NoMore else NothingYet;
    }

    method Done()
      modifies this
      ensures Contents() == AfterDone(old(Contents()))
      ensures jobs == old(jobs) && inFlight == old(inFlight) - 1
    {
      inFlight := inFlight - 1;
    }
  }

  // ----- The loop over the roots -----

  function Paths(jobs: seq<Job>): (r: seq<Path>)
    ensures |r| == |jobs| && forall i :: 0 <= i < |jobs| ==> r[i] == jobs[i].path
  {
    seq(|jobs|, i requires 0 <= i < |jobs| => jobs[i].path)
  }

  /** Every directory root is queued once with its own device, every file root is emitted once, and
      excluded, missing and symlink roots are skipped. */
  method SeedRoots(t: Tree, queue: DirectoryQueue) returns (emitted: seq<Path>)
    requires Antichain(t.roots) && queue.Contents() == Queue([], 0)
    modifies queue
    ensures queue.inFlight == 0 && Seeded(t, queue.jobs, emitted, |t.roots|)
  {
    NothingSeeded(t);
    hide Seeded;
    emitted := [];
    for n := 0 to |t.roots|
      invariant queue.inFlight == 0 && Seeded(t, queue.jobs, emitted, n)
    {
      var root := t.roots[n];
      SeedRoot(t, queue.jobs, emitted, n);
      if Passes(t, root) {
        if t.fs[root].kind == Dir {
          queue.Push(Job(root, t.fs[root].dev));
        } else {
          emitted := emitted + [root];
        }
      }
    }
  }

  ghost predicate Seeded(t: Tree, jobs: seq<Job>, emitted: seq<Path>, n: nat)
    requires n <= |t.roots|
  {
    && NoDuplicates(Paths(jobs)) && NoDuplicates(emitted)
    && (forall p :: p in emitted <==> p in t.roots[..n] && IsRootFile(t, p))
    && (forall p :: p in Paths(jobs) <==> p in t.roots[..n] && IsRootDir(t, p))
    && (forall j :: j in jobs ==> IsRootDir(t, j.path) && j.allowedDev == t.fs[j.path].dev)
  }

  lemma NothingSeeded(t: Tree)
    ensures Seeded(t, [], [], 0)
  {
  }

  lemma SeedRoot(t: Tree, jobs: seq<Job>, emitted: seq<Path>, n: nat)
    requires n < |t.roots| && Antichain(t.roots) && Seeded(t, jobs, emitted, n)
    ensures var root := t.roots[n];
      Seeded(t, if IsRootDir(t, root) then jobs + [Job(root, t.fs[root].dev)] else jobs,
             if IsRootFile(t, root) then emitted + [root] else emitted, n + 1)
  {
    var root := t.roots[n];
    RootsDistinct(t.roots);
    assert t.roots[..n + 1] == t.roots[..n] + [root];
    assert root !in t.roots[..n] && root !in Paths(jobs);
    hide Passes;
    if IsRootDir(t, root) {
      assert Paths(jobs + [Job(root, t.fs[root].dev)]) == Paths(jobs) + [root];
    }
  }

  lemma RootsDistinct(roots: seq<Path>)
    requires Antichain(roots)
    ensures NoDuplicates(roots)
  {
    forall i, j | 0 <= i < j < |roots| ensures roots[i] != roots[j] {
      assert !IsUnderOrEqual(roots[i], roots[j]);
    }
  }

  // ----- The loop over one directory's listing -----

  /** A directory that is queued in its turn: an explicitly selected root, or one on the same device. */
  predicate Queues(t: Tree, job: Job, child: Path) {
    && Passes(t, child) && t.fs[child].kind == Dir
    && (child in t.roots || t.fs[child].dev == job.allowedDev)
  }

  function ChildJob(t: Tree, job: Job, child: Path): Job
    requires child in t.fs
  {
    Job(child, if child in t.roots then t.fs[child].dev else job.allowedDev)
  }

  /** What visiting the listed paths in order emits. */
  function EmittedFrom(t: Tree, listed: seq<Path>): seq<Path> {
    if listed == [] then []
    else
      var last := listed[|listed| - 1];
      var rest := EmittedFrom(t, listed[..|listed| - 1]);
      if Passes(t, last) then rest + [last] else rest
  }

  function QueuedFrom(t: Tree, job: Job, listed: seq<Path>): seq<Job> {
    if listed == [] then []
    else
      var last := listed[|listed| - 1];
      var rest := QueuedFrom(t, job, listed[..|listed| - 1]);
      if Queues(t, job, last) then rest + [ChildJob(t, job, last)] else rest
  }

  /** A listing without repetitions emits exactly its passing paths, each once, and queues exactly the
      directories among them that are walked, each once. */
  lemma {:induction false} ListingExact(t: Tree, job: Job, listed: seq<Path>)
    ensures forall p :: p in EmittedFrom(t, listed) <==> p in listed && Passes(t, p)
    ensures forall p :: p in Paths(QueuedFrom(t, job, listed)) <==> p in listed && Queues(t, job, p)
    ensures NoDuplicates(listed) ==> NoDuplicates(EmittedFrom(t, listed))
    ensures NoDuplicates(listed) ==> NoDuplicates(Paths(QueuedFrom(t, job, listed)))
  {
    if listed != [] {
      var but, last := listed[..|listed| - 1], listed[|listed| - 1];
      ListingExact(t, job, but);
      assert listed == but + [last];
      hide Passes;
      if Queues(t, job, last) {
        var rest := QueuedFrom(t, job, but);
        assert Paths(rest + [ChildJob(t, job, last)]) == Paths(rest) + [last];
      }
    }
  }

  lemma ListOne(t: Tree, job: Job, listed: seq<Path>, child: Path)
    ensures EmittedFrom(t, listed + [child])
      == if Passes(t, child) then EmittedFrom(t, listed) + [child] else EmittedFrom(t, listed)
    ensures QueuedFrom(t, job, listed + [child])
      == QueuedFrom(t, job, listed) + (if Queues(t, job, child) then [ChildJob(t, job, child)] else [])
  {
    assert (listed + [child])[..|listed|] == listed;
  }

  function Flat(batches: seq<seq<Path>>): seq<Path> {
    if batches == [] then [] else Flat(batches[..|batches| - 1]) + batches[|batches| - 1]
  }

  /** The path was listed in one of the first n buffers. */
  predicate Listed(batches: seq<seq<Path>>, n: nat, p: Path)
    requires n <= |batches|
  {
    exists k :: 0 <= k < n && p in batches[k]
  }

  /** The first n buffers together list no path twice. */
  ghost predicate ListedOnce(batches: seq<seq<Path>>, n: nat)
    requires n <= |batches|
  {
    && (forall k :: 0 <= k < n ==> NoDuplicates(batches[k]))
    && forall j, k :: 0 <= j < k < n ==> forall p :: p in batches[j] ==> p !in batches[k]
  }

  lemma {:induction false} FlatLists(batches: seq<seq<Path>>, n: nat)
    requires n <= |batches|
    ensures forall p :: p in Flat(batches[..n]) <==> Listed(batches, n, p)
    ensures ListedOnce(batches, n) ==> NoDuplicates(Flat(batches[..n]))
  {
    if n > 0 {
      FlatLists(batches, n - 1);
      assert batches[..n][..n - 1] == batches[..n - 1];
      forall p ensures Listed(batches, n, p) <==> Listed(batches, n - 1, p) || p in batches[n - 1] {
      }
      if ListedOnce(batches, n) {
        assert ListedOnce(batches, n - 1);
        var before, last := Flat(batches[..n - 1]), batches[n - 1];
        forall p | p in before ensures p !in last {
          assert Listed(batches, n - 1, p);
        }
        JoinUnique(before, last);
      }
    }
  }

  lemma JoinUnique(a: seq<Path>, b: seq<Path>)
    requires NoDuplicates(a) && NoDuplicates(b) && forall p :: p in a ==> p !in b
    ensures NoDuplicates(a + b)
  {
    forall i, j | 0 <= i < j < |a + b| ensures (a + b)[i] != (a + b)[j] {
      if i < |a| <= j {
        assert a[i] in a && b[j - |a|] in b;
      }
    }
  }

  /** One visited directory: what its buffers emit and queue, each path once if they list none twice. */
  ghost predicate VisitsListed(t: Tree, job: Job, batches: seq<seq<Path>>, n: nat, emitted: seq<Path>, queued: seq<Job>)
    requires n <= |batches|
  {
    && (forall p :: p in emitted <==> Passes(t, p) && Listed(batches, n, p))
    && (forall p :: p in Paths(queued) <==> Queues(t, job, p) && Listed(batches, n, p))
    && (forall j :: j in queued ==>
          j.path in t.fs && j.allowedDev == if j.path in t.roots then t.fs[j.path].dev else job.allowedDev)
    && (ListedOnce(batches, n) ==> NoDuplicates(emitted) && NoDuplicates(Paths(queued)))
  }

  lemma FlatVisited(t: Tree, job: Job, batches: seq<seq<Path>>, n: nat)
    requires n <= |batches|
    ensures var listed := Flat(batches[..n]);
      VisitsListed(t, job, batches, n, EmittedFrom(t, listed), QueuedFrom(t, job, listed))
  {
    FlatLists(batches, n);
    ListingExact(t, job, Flat(batches[..n]));
    QueuedDevices(t, job, Flat(batches[..n]));
    hide Flat, EmittedFrom, QueuedFrom, Passes, Queues, Listed, ListedOnce;
  }

  lemma {:induction false} QueuedDevices(t: Tree, job: Job, listed: seq<Path>)
    ensures forall j :: j in QueuedFrom(t, job, listed) ==>
      j.path in t.fs && j.allowedDev == if j.path in t.roots then t.fs[j.path].dev else job.allowedDev
  {
    if listed != [] {
      QueuedDevices(t, job, listed[..|listed| - 1]);
    }
  }

  lemma NothingListed(t: Tree, job: Job, batches: seq<seq<Path>>)
    ensures EmittedFrom(t, Flat(batches[..0])) == [] && QueuedFrom(t, job, Flat(batches[..0])) == []
  {
  }

  lemma NextListed(t: Tree, job: Job, batches: seq<seq<Path>>, n: nat)
    requires n < |batches|
    ensures EmittedFrom(t, Flat(batches[..n + 1]))
      == EmittedFrom(t, Flat(batches[..n])) + EmittedFrom(t, batches[n])
    ensures QueuedFrom(t, job, Flat(batches[..n + 1]))
      == QueuedFrom(t, job, Flat(batches[..n])) + QueuedFrom(t, job, batches[n])
  {
    hide EmittedFrom, QueuedFrom;
    assert batches[..n + 1][..n] == batches[..n];
    EmittedAppend(t, job, Flat(batches[..n]), batches[n]);
    QueuedAppend(t, job, Flat(batches[..n]), batches[n]);
  }

  predicate IsChild(t: Tree, dir: Path, p: Path) {
    p in t.fs && HasParent(p) && ParentOf(p) == dir
  }

  /** The whole directory: when the buffers hold exactly its children, exactly those that pass are
      emitted, and exactly the directories among them that are on the allowed device or selected as
      roots are queued. */
  lemma DirectoryExact(t: Tree, job: Job, batches: seq<seq<Path>>, emitted: seq<Path>, queued: seq<Job>)
    requires VisitsListed(t, job, batches, |batches|, emitted, queued)
    requires forall p :: Listed(batches, |batches|, p) <==> IsChild(t, job.path, p)
    ensures forall p :: p in emitted <==> IsChild(t, job.path, p) && Passes(t, p)
    ensures forall p :: p in Paths(queued) <==>
      && IsChild(t, job.path, p) && Passes(t, p) && t.fs[p].kind == Dir
      && (t.fs[p].dev == job.allowedDev || p in t.roots)
  {
    hide Listed, IsChild, Passes;
  }

  lemma {:induction false} EmittedAppend(t: Tree, job: Job, listed: seq<Path>, more: seq<Path>)
    ensures EmittedFrom(t, listed + more) == EmittedFrom(t, listed) + EmittedFrom(t, more)
  {
    if more == [] {
      assert listed + more == listed;
    } else {
      hide EmittedFrom, QueuedFrom, Passes, Queues;
      var but, last := more[..|more| - 1], more[|more| - 1];
      EmittedAppend(t, job, listed, but);
      assert listed + more == (listed + but) + [last] && more == but + [last];
      ListOne(t, job, listed + but, last);
      ListOne(t, job, but, last);
      Regrouped(EmittedFrom(t, listed), EmittedFrom(t, but), [last]);
    }
  }

  lemma {:induction false} QueuedAppend(t: Tree, job: Job, listed: seq<Path>, more: seq<Path>)
    ensures QueuedFrom(t, job, listed + more) == QueuedFrom(t, job, listed) + QueuedFrom(t, job, more)
  {
    if more == [] {
      assert listed + more == listed;
    } else {
      hide EmittedFrom, QueuedFrom, Passes, Queues;
      var but, last := more[..|more| - 1], more[|more| - 1];
      QueuedAppend(t, job, listed, but);
      assert listed + more == (listed + but) + [last] && more == but + [last];
      ListOne(t, job, listed + but, last);
      ListOne(t, job, but, last);
      Regrouped(QueuedFrom(t, job, listed), QueuedFrom(t, job, but),
                if Queues(t, job, last) then [ChildJob(t, job, last)] else []);
    }
  }

  lemma Regrouped<T>(a: seq<T>, b: seq<T>, c: seq<T>)
    ensures (a + b) + c == a + (b + c)
  {
  }

  /** The entries of one getdents64 buffer. */
  method VisitBatch(t: Tree, job: Job, batch: seq<Path>, queue: DirectoryQueue) returns (emitted: seq<Path>)
    modifies queue
    ensures emitted == EmittedFrom(t, batch)
    ensures queue.inFlight == old(queue.inFlight)
    ensures queue.jobs == old(queue.jobs) + QueuedFrom(t, job, batch)
  {
    emitted := [];
    for i := 0 to |batch|
      invariant emitted == EmittedFrom(t, batch[..i])
      invariant queue.inFlight == old(queue.inFlight)
      invariant queue.jobs == old(queue.jobs) + QueuedFrom(t, job, batch[..i])
    {
      assert batch[..i + 1] == batch[..i] + [batch[i]];
      ListOne(t, job, batch[..i], batch[i]);
      hide EmittedFrom, QueuedFrom;
      if Passes(t, batch[i]) {
        emitted := emitted + [batch[i]];
        if Queues(t, job, batch[i]) {
          queue.Push(ChildJob(t, job, batch[i]));
        }
      }
    }
    assert batch[..|batch|] == batch;
  }

  /** ProcessDirectory. `batches` is what successive getdents64 calls return; `cancelled(k)` is the
      token's value at the k-th turn of the outer loop. */
  method ProcessDirectory(t: Tree, job: Job, batches: seq<seq<Path>>, cancelled: nat -> bool, queue: DirectoryQueue)
    returns (emitted: seq<Path>, ghost turns: nat)
    modifies queue
    ensures turns <= |batches| && (job.path !in t.fs || !t.fs[job.path].readable ==> turns == 0)
    ensures forall k :: 0 <= k < turns ==> !cancelled(k)
    ensures job.path in t.fs && t.fs[job.path].readable ==> turns == |batches| || cancelled(turns)
    ensures emitted == EmittedFrom(t, Flat(batches[..turns]))
    ensures queue.inFlight == old(queue.inFlight)
    ensures queue.jobs == old(queue.jobs) + QueuedFrom(t, job, Flat(batches[..turns]))
    ensures |old(queue.jobs)| <= |queue.jobs| && queue.jobs[..|old(queue.jobs)|] == old(queue.jobs)
    ensures VisitsListed(t, job, batches, turns, emitted, queue.jobs[|old(queue.jobs)|..])
  {
    hide VisitsListed, Passes, Queues, Flat, EmittedFrom, QueuedFrom;
    NothingListed(t, job, batches);
    emitted, turns := [], 0;
    FlatVisited(t, job, batches, 0);
    assert queue.jobs[|old(queue.jobs)|..] == QueuedFrom(t, job, Flat(batches[..0]));
    if job.path !in t.fs || !t.fs[job.path].readable {
      return;
    }
    var n := 0;
    while n < |batches| && !cancelled(n)
      invariant n == turns <= |batches| && forall k :: 0 <= k < n ==> !cancelled(k)
      invariant emitted == EmittedFrom(t, Flat(batches[..n]))
      invariant queue.inFlight == old(queue.inFlight)
      invariant queue.jobs == old(queue.jobs) + QueuedFrom(t, job, Flat(batches[..n]))
    {
      var found := VisitBatch(t, job, batches[n], queue);
      NextListed(t, job, batches, n);
      emitted := emitted + found;
      n := n + 1;
      turns := n;
    }
    FlatVisited(t, job, batches, turns);
    assert queue.jobs[|old(queue.jobs)|..] == QueuedFrom(t, job, Flat(batches[..turns]));
  }
}
