/** An instance of ServiceAnyOrder: IndexService registers a request and enqueues it in two sections,
    so two threads can enqueue in the opposite order, and then the index need not reflect the latest
    request even though nothing cancelled it. */
module ServiceRace {
  import opened Common
  import opened PathUtils
  import opened WalkTree
  import opened IndexServices
  import opened ServiceModel
  import opened ServiceFrames
  import opened ServiceRequests
  import opened ServiceData
  import opened ServiceScope
  import opened ServiceCoverage
  import opened ServiceAnyOrder

  lemma SteadyThen(s: State, a: Label, run: seq<Label>, s': State)
    requires Enabled(s, a) && Steady(a) && IsSteadyRun(Apply(s, a), run, s')
    ensures IsSteadyRun(s, [a] + run, s')
  {
    hide Apply, Enabled, Steady;
    assert ([a] + run)[1..] == run;
  }

  lemma SteadyNone(s: State)
    ensures IsSteadyRun(s, [], s)
  {
  }

  lemma {:induction false} SteadyAppend(s: State, first: seq<Label>, middle: State, second: seq<Label>, last: State)
    requires IsSteadyRun(s, first, middle) && IsSteadyRun(middle, second, last)
    ensures IsSteadyRun(s, first + second, last)
    decreases |first|
  {
    hide Apply, Enabled, Steady;
    if first == [] {
      assert first + second == second;
    } else {
      SteadyAppend(Apply(s, first[0]), first[1..], middle, second, last);
      assert (first + second)[1..] == first[1..] + second;
    }
  }

  lemma RequestIs(s: State, c: Command)
    requires !s.locked.shuttingDown && IsBusy(c) && c.token == s.locked.nextToken
    ensures Enabled(s, Request(c))
    ensures Apply(s, Request(c))
      == s.(locked := Registered(s.locked), pending := s.pending + [c], hist := s.hist.(latest := Some(c)))
  {
    hide ApplyFiles, ApplyWorker;
  }

  lemma EnqueueIs(s: State, i: nat)
    requires i < |s.pending|
    ensures Enabled(s, Enqueue(i))
    ensures Apply(s, Enqueue(i))
      == s.(locked := Enqueued(s.locked, s.pending[i]), pending := s.pending[..i] + s.pending[i + 1..])
  {
    hide ApplyFiles, ApplyWorker;
  }

  lemma TakeIs(s: State)
    requires s.pc.Waiting? && !s.locked.shuttingDown && s.locked.commands != [] && IsBusy(s.locked.commands[0])
    ensures Enabled(s, Take)
    ensures var c := s.locked.commands[0];
      Apply(s, Take) == s.(locked := Taken(s.locked), pc := Got(c), hist := s.hist.(current := Some(c)))
  {
    hide ApplyFiles, ApplyRequest;
  }

  /** A request that was cancelled before it was dequeued. */
  lemma EnterCancelledIs(s: State)
    requires s.pc.Got? && IsBusy(s.pc.c) && IsCancelled(s, s.pc.c)
    ensures Enabled(s, Enter) && Apply(s, Enter) == s.(needsFullRebuild := true, pc := Releasing(s.pc.c))
  {
    hide ApplyFiles, ApplyRequest;
  }

  lemma EnterIs(s: State)
    requires s.pc.Got? && IsBusy(s.pc.c) && !IsCancelled(s, s.pc.c) && !s.busyReported
    ensures Enabled(s, Enter)
    ensures Apply(s, Enter)
      == s.(pc := Entered(s.pc.c), busyReported := true, hist := s.hist.(busyLog := s.hist.busyLog + [true]))
  {
    hide ApplyFiles, ApplyRequest;
  }

  lemma StartIs(s: State)
    requires s.pc.Entered?
    ensures Enabled(s, Start)
    ensures Apply(s, Start) == s.(locked := s.locked.(scanRunning := true), pc := Deciding(s.pc.c))
  {
    hide ApplyFiles, ApplyRequest;
  }

  lemma DecideAddIs(s: State)
    requires s.pc.Deciding? && s.pc.c.Change? && !s.needsFullRebuild
    requires DiffOf(s.pc.c).added != [] && DiffOf(s.pc.c).removed == []
    ensures Enabled(s, Decide(false))
    ensures Apply(s, Decide(false))
      == s.(pc := Scanning(s.pc.c, false, ScanJob(AddedOptions(s.pc.c), {}, {}, false)),
            hist := s.hist.(base := Some(Base(s.pc.c, false, Elements(s.live), Held(s.hist.base)))))
  {
    hide ApplyFiles, ApplyRequest, DiffOf;
  }

  lemma EndEmptyScanIs(s: State)
    requires s.pc.Scanning? && !s.pc.full && s.pc.job.inHand == {} && IsBusy(s.pc.c) && !IsCancelled(s, s.pc.c)
    requires Scope(s.disk, CoverOf(s.pc.job.options)) <= s.pc.job.observed
    ensures Enabled(s, EndScan) && Apply(s, EndScan) == s.(pc := Saving(s.pc.c, Main))
  {
    hide ApplyFiles, ApplyRequest, Scope;
  }

  lemma SaveIs(s: State)
    requires s.pc.Saving? && s.pc.save.Main?
    ensures Enabled(s, Serialize) && Apply(s, Serialize) == s.(pc := Writing(s.pc.c, Main, s.live))
    ensures var s1 := s.(pc := Writing(s.pc.c, Main, s.live));
      && Enabled(s1, Write(true))
      && Apply(s1, Write(true)) == s.(file := Some(s.live), pc := Finishing(s.pc.c, true))
  {
    hide ApplyFiles, ApplyRequest;
  }

  lemma FinishIs(s: State)
    requires s.pc.Finishing? && s.pc.completed && s.locked.removedDuringScan == []
    ensures Enabled(s, Finish)
    ensures Apply(s, Finish)
      == s.(locked := s.locked.(scanRunning := false), pc := Reapplying(s.pc.c, true, [], 0))
  {
    hide ApplyFiles, ApplyRequest;
  }

  lemma ConcludeIs(s: State)
    requires s.pc.Reapplying? && s.pc.completed && s.pc.recorded == [] && s.pc.applied == 0
    ensures Enabled(s, Conclude) && Apply(s, Conclude) == s.(pc := Concluding(s.pc.c, true))
    ensures var s1 := s.(pc := Concluding(s.pc.c, true));
      Enabled(s1, Conclude) && Apply(s1, Conclude) == s.(needsFullRebuild := false, pc := Releasing(s.pc.c))
  {
    hide ApplyFiles, ApplyRequest;
  }

  lemma ReleaseIs(s: State)
    requires s.pc.Releasing?
    ensures Enabled(s, Release)
    ensures Apply(s, Release)
      == s.(locked := s.locked.(pendingBusy := s.locked.pendingBusy - 1), pc := Reporting(s.locked.pendingBusy - 1))
  {
    hide ApplyFiles, ApplyRequest;
  }

  lemma ReportIs(s: State)
    requires s.pc.Reporting?
    ensures Enabled(s, Report)
    ensures var quiet := s.pc.remaining == 0 && s.busyReported;
      Apply(s, Report) == if quiet
        then s.(busyReported := false, pc := Waiting, hist := s.hist.(busyLog := s.hist.busyLog + [false]))
        else s.(pc := Waiting)
  {
    hide ApplyFiles, ApplyRequest;
  }

  /** From a release to the next wait. */
  lemma Close(s: State) returns (run: seq<Label>, s': State)
    requires s.pc.Releasing?
    ensures IsSteadyRun(s, run, s') && s'.pc.Waiting? && s'.live == s.live && s'.pending == s.pending
    ensures s'.locked == s.locked.(pendingBusy := s.locked.pendingBusy - 1)
    ensures s'.disk == s.disk && s'.hist.latest == s.hist.latest && s'.needsFullRebuild == s.needsFullRebuild
    ensures s'.hist.base == s.hist.base
  {
    hide Apply, Enabled;
    ReleaseIs(s);
    var s1 := Apply(s, Release);
    ReportIs(s1);
    s' := Apply(s1, Report);
    SteadyThen(s1, Report, [], s');
    SteadyThen(s, Release, [Report] + [], s');
    run := [Release] + ([Report] + []);
  }

  /** From being dequeued to the decision what to do. */
  lemma Open(s: State) returns (run: seq<Label>, s': State)
    requires s.pc.Got? && IsBusy(s.pc.c) && !IsCancelled(s, s.pc.c) && !s.busyReported
    ensures IsSteadyRun(s, run, s')
    ensures s' == s.(locked := s.locked.(scanRunning := true), pc := Deciding(s.pc.c), busyReported := true,
                     hist := s.hist.(busyLog := s.hist.busyLog + [true]))
  {
    hide Apply, Enabled, IsSteadyRun;
    EnterIs(s);
    var s1 := Apply(s, Enter);
    StartIs(s1);
    s' := Apply(s1, Start);
    SteadyNone(s');
    SteadyThen(s1, Start, [], s');
    var r1 := [Start] + [];
    SteadyThen(s, Enter, r1, s');
    run := [Enter] + r1;
  }

  /** From the end of a completed command's own work to its release, with no removal recorded. */
  lemma WrapUp(s: State) returns (run: seq<Label>, s': State)
    requires s.pc.Finishing? && s.pc.completed && s.locked.removedDuringScan == []
    ensures IsSteadyRun(s, run, s')
    ensures s' == s.(locked := s.locked.(scanRunning := false), pc := Releasing(s.pc.c), needsFullRebuild := false)
  {
    hide Apply, Enabled, IsSteadyRun;
    FinishIs(s);
    var s1 := Apply(s, Finish);
    ConcludeIs(s1);
    var s2 := Apply(s1, Conclude);
    s' := Apply(s2, Conclude);
    SteadyNone(s');
    SteadyThen(s2, Conclude, [], s');
    var r2 := [Conclude] + [];
    SteadyThen(s1, Conclude, r2, s');
    var r1 := [Conclude] + r2;
    SteadyThen(s, Finish, r1, s');
    run := [Finish] + r1;
  }

  /** A scan that finds nothing, and the save after it. */
  lemma ScanNothing(s: State) returns (run: seq<Label>, s': State)
    requires s.pc.Deciding? && s.pc.c.Change? && !IsCancelled(s, s.pc.c) && !s.needsFullRebuild
    requires DiffOf(s.pc.c).added != [] && DiffOf(s.pc.c).removed == []
    requires Scope(s.disk, CoverOf(AddedOptions(s.pc.c))) == {}
    ensures IsSteadyRun(s, run, s')
    ensures s' == s.(file := Some(s.live), pc := Finishing(s.pc.c, true),
                     hist := s.hist.(base := Some(Base(s.pc.c, false, Elements(s.live), Held(s.hist.base)))))
  {
    hide Apply, Enabled, IsSteadyRun, Scope, DiffOf, AddedOptions, CoverOf, Held, Elements;
    DecideAddIs(s);
    var s1 := Apply(s, Decide(false));
    EndEmptyScanIs(s1);
    var s2 := Apply(s1, EndScan);
    SaveIs(s2);
    var s3 := Apply(s2, Serialize);
    s' := Apply(s3, Write(true));
    SteadyNone(s');
    SteadyThen(s3, Write(true), [], s');
    var r3 := [Write(true)] + [];
    SteadyThen(s2, Serialize, r3, s');
    var r2 := [Serialize] + r3;
    SteadyThen(s1, EndScan, r2, s');
    var r1 := [EndScan] + r2;
    SteadyThen(s, Decide(false), r1, s');
    run := [Decide(false)] + r1;
  }

  /** A Settings change that adds roots with nothing in them, from being dequeued to its release. */
  lemma AddNothing(s: State) returns (run: seq<Label>, s': State)
    requires s.pc.Got? && s.pc.c.Change? && !IsCancelled(s, s.pc.c) && !s.needsFullRebuild && !s.busyReported
    requires DiffOf(s.pc.c).added != [] && DiffOf(s.pc.c).removed == []
    requires Scope(s.disk, CoverOf(AddedOptions(s.pc.c))) == {}
    requires s.locked.removedDuringScan == [] && !s.locked.scanRunning
    ensures IsSteadyRun(s, run, s') && s'.pc == Releasing(s.pc.c) && s'.live == s.live && s'.pending == s.pending
    ensures s'.locked == s.locked && s'.disk == s.disk && s'.hist.latest == s.hist.latest
    ensures s'.hist.base == Some(Base(s.pc.c, false, Elements(s.live), Held(s.hist.base)))
  {
    hide IsSteadyRun, Scope, DiffOf, AddedOptions, CoverOf, Held, Elements;
    var first, s1 := Open(s);
    var second, s2 := ScanNothing(s1);
    var third;
    third, s' := WrapUp(s2);
    SteadyAppend(s1, second, s2, third, s');
    SteadyAppend(s, first, s1, second + third, s');
    run := first + (second + third);
  }

  lemma TwoRequests(s: State, c0: Command, c1: Command) returns (run: seq<Label>, s': State)
    requires Initial(s) && IsBusy(c0) && IsBusy(c1) && c0.token == 0 && c1.token == 1
    requires WellPosed(c0) && WellPosed(c1)
    ensures IsSteadyRun(s, run, s') && s'.pending == [c0, c1]
    ensures s' == s.(locked := Locked([], [1], false, false, 2, [], false, {0}, 2), pending := s'.pending,
                     hist := s.hist.(latest := Some(c1)))
  {
    hide Apply, Enabled, WellPosed, IsSteadyRun;
    RequestIs(s, c0);
    var s1 := Apply(s, Request(c0));
    assert s1.locked == Locked([], [0], false, false, 1, [], false, {}, 1);
    RequestIs(s1, c1);
    s' := Apply(s1, Request(c1));
    assert Elements(s1.locked.scanCancels) == {0};
    SteadyNone(s');
    SteadyThen(s1, Request(c1), [], s');
    var r1 := [Request(c1)] + [];
    SteadyThen(s, Request(c0), r1, s');
    run := [Request(c0)] + r1;
  }

  lemma EnqueueSecond(s: State, c0: Command, c1: Command)
    requires s.pending == [c0, c1] && s.locked.commands == [] && !s.locked.shuttingDown
    ensures Enabled(s, Enqueue(1))
    ensures Apply(s, Enqueue(1)) == s.(locked := s.locked.(commands := [c1]), pending := [c0])
  {
    EnqueueIs(s, 1);
    hide Apply, Enabled;
    assert s.pending[..1] + s.pending[2..] == [c0];
  }

  lemma EnqueueLast(s: State, c0: Command, c1: Command)
    requires s.pending == [c0] && s.locked.commands == [c1] && !s.locked.shuttingDown
    ensures Enabled(s, Enqueue(0))
    ensures Apply(s, Enqueue(0)) == s.(locked := s.locked.(commands := [c1, c0]), pending := [])
  {
    EnqueueIs(s, 0);
    hide Apply, Enabled;
    assert s.pending[..0] + s.pending[1..] == [] && s.locked.commands + [c0] == [c1, c0];
  }

  lemma TakeFirst(s: State, c0: Command, c1: Command)
    requires s.pc.Waiting? && !s.locked.shuttingDown && s.locked.commands == [c1, c0] && IsBusy(c1)
    ensures Enabled(s, Take)
    ensures Apply(s, Take)
      == s.(locked := s.locked.(commands := [c0]), pc := Got(c1), hist := s.hist.(current := Some(c1)))
  {
    TakeIs(s);
    hide Apply, Enabled;
    assert s.locked.commands[1..] == [c0];
  }

  /** The later of two pending requests is enqueued and dequeued first. */
  lemma Reordered(s: State, c0: Command, c1: Command) returns (run: seq<Label>, s': State)
    requires s.pending == [c0, c1] && s.pc.Waiting? && IsBusy(c1)
    requires s.locked == Locked([], [1], false, false, 2, [], false, {0}, 2)
    ensures IsSteadyRun(s, run, s')
    ensures s' == s.(locked := s.locked.(commands := [c0]), pending := [], pc := Got(c1),
                     hist := s.hist.(current := Some(c1)))
  {
    hide Apply, Enabled, IsSteadyRun;
    EnqueueSecond(s, c0, c1);
    var s1 := Apply(s, Enqueue(1));
    EnqueueLast(s1, c0, c1);
    var s2 := Apply(s1, Enqueue(0));
    TakeFirst(s2, c0, c1);
    s' := Apply(s2, Take);
    SteadyNone(s');
    SteadyThen(s2, Take, [], s');
    var r2 := [Take] + [];
    SteadyThen(s1, Enqueue(0), r2, s');
    var r1 := [Enqueue(0)] + r2;
    SteadyThen(s, Enqueue(1), r1, s');
    run := [Enqueue(1)] + r1;
  }

  /** Two requests registered one after the other and enqueued in the opposite order, with the later
      one dequeued. */
  lemma Overtake(s: State, c0: Command, c1: Command) returns (run: seq<Label>, s': State)
    requires Initial(s) && IsBusy(c0) && IsBusy(c1) && c0.token == 0 && c1.token == 1
    requires WellPosed(c0) && WellPosed(c1)
    ensures IsSteadyRun(s, run, s') && s'.pc == Got(c1) && s'.pending == [] && s'.live == [] && s'.disk == s.disk
    ensures s'.locked == Locked([c0], [1], false, false, 2, [], false, {0}, 2)
    ensures !s'.needsFullRebuild && !s'.busyReported && s'.hist.latest == Some(c1)
  {
    hide WellPosed, IsSteadyRun;
    var first, middle := TwoRequests(s, c0, c1);
    var second;
    second, s' := Reordered(middle, c0, c1);
    SteadyAppend(s, first, middle, second, s');
    run := first + second;
  }

  /** The overtaken request is dequeued last and finds itself cancelled. */
  lemma Overtaken(s: State, c0: Command) returns (run: seq<Label>, s': State)
    requires s.pc.Waiting? && !s.locked.shuttingDown && s.locked.commands == [c0] && IsBusy(c0)
    requires c0.token in s.locked.cancelled && s.pending == []
    ensures IsSteadyRun(s, run, s') && Drained(s') && s'.live == s.live && s'.disk == s.disk
    ensures s'.hist.latest == s.hist.latest && s'.locked.cancelled == s.locked.cancelled
    ensures s'.hist.base == s.hist.base
  {
    hide Apply, Enabled;
    TakeIs(s);
    var s1 := Apply(s, Take);
    EnterCancelledIs(s1);
    var s2 := Apply(s1, Enter);
    var rest;
    rest, s' := Close(s2);
    SteadyThen(s1, Enter, rest, s');
    SteadyThen(s, Take, [Enter] + rest, s');
    run := [Take] + ([Enter] + rest);
  }

  /** The disk of the example: one file under "/a", nothing under "/b". */
  const EXAMPLE: Disk :=
    map["/a" := Node(Dir, 0, true), "/a/x" := Node(File, 0, true), "/b" := Node(Dir, 0, true)]

  lemma ExampleTree()
    ensures var t := TreeOf(EXAMPLE, []);
      && Passes(t, "/a") && Passes(t, "/a/x") && Passes(t, "/b") && Below(t, "/a", "/a/x")
      && forall p :: p in EXAMPLE ==> !Below(t, "/b", p)
  {
    var t := TreeOf(EXAMPLE, []);
    assert LastSlash("/a/x") == 2 && LastSlash("/a/") == 2 by {
      assert "/a/x"[..3] == "/a/";
    }
    assert LastSlash("/a") == 0 && LastSlash("/b") == 0 by {
      assert "/a"[..1] == "/" && "/b"[..1] == "/";
    }
    assert ParentOf("/a/x") == "/a" && ParentOf("/a") == "/" && ParentOf("/b") == "/";
    assert "/" !in t.fs;
  }

  lemma ExampleScopes()
    ensures Scope(EXAMPLE, CoverOf(ScanOptions(["/b"], []))) == {}
    ensures "/a/x" in Scope(EXAMPLE, CoverOf(ScanOptions(["/a"], [])))
    ensures "/a/x" in Scope(EXAMPLE, CoverOf(ScanOptions(["/a", "/b"], [])))
  {
    ExampleTree();
    assert FromRoot(EXAMPLE, [], "/a", "/a/x");
    assert ["/a", "/b"][0] == "/a" && ["/a"][0] == "/a";
    assert "/a" in CoverOf(ScanOptions(["/a", "/b"], [])) && "/a" in CoverOf(ScanOptions(["/a"], []));
    hide FromRoot, Below;
    forall r, p | r in CoverOf(ScanOptions(["/b"], [])) && p in EXAMPLE ensures !FromRoot(EXAMPLE, [], r, p) {
      assert r == "/b";
      NotFromB(p);
    }
  }

  lemma NotFromB(p: Path)
    requires p in EXAMPLE
    ensures !FromRoot(EXAMPLE, [], "/b", p)
  {
    ExampleTree();
    hide Below, Passes;
  }

  const FIRST := Rebuild(true, ScanOptions(["/a"], []), 0)
  const SECOND := Change(["/a"], ScanOptions(["/a", "/b"], []), 1)

  /** Two requesters, each orderly on its own: a rebuild of "/a", then a Settings change that adds
      "/b". The change overtakes, finds an empty index where its old roots say "/a", completes
      uncancelled, everything drains, and "/a/x" is missing. */
  lemma RacingRequestersLoseRoots(start: State) returns (run: seq<Label>, s: State)
    requires Initial(start) && start.disk == EXAMPLE
    ensures IsSteadyRun(start, run, s) && Drained(s) && s.disk == EXAMPLE
    ensures s.hist.latest == Some(SECOND) && Current(s, SECOND)
    ensures s.hist.base.Some? && s.hist.base.value.c == SECOND
    ensures !s.hist.base.value.full && !FoundOldRoots(WorldOf(s), s.hist.base.value)
    ensures "/a/x" in Scope(EXAMPLE, CoverOf(SECOND.newOptions)) && "/a/x" !in s.live
  {
    ExampleDiff();
    ExampleScopes();
    ExamplePosed();
    hide IsSteadyRun, Scope, DiffOf, AddedOptions, CoverOf, Apply, Enabled, Initial, FoundOldRoots, WellPosed, Drained,
      Current, Elements, Held, EXAMPLE;
    NothingLive();
    var first, s1 := Overtake(start, FIRST, SECOND);
    var second, s2 := AddNothing(s1);
    var third, s3 := Close(s2);
    var fourth;
    fourth, s := Overtaken(s3, FIRST);
    SteadyAppend(s2, third, s3, fourth, s);
    SteadyAppend(s1, second, s2, third + fourth, s);
    SteadyAppend(start, first, s1, second + (third + fourth), s);
    run := first + (second + (third + fourth));
    SecondIsCurrent(s);
    NotFoundThere(start, run, s);
  }

  lemma SecondIsCurrent(s: State)
    requires s.hist.latest == Some(SECOND) && s.locked.cancelled == {0}
    ensures Current(s, SECOND)
  {
  }

  /** The index lacks a path of the latest request's scope, so the request did not find its old roots. */
  lemma NotFoundThere(start: State, run: seq<Label>, s: State)
    requires Initial(start) && IsSteadyRun(start, run, s) && Drained(s) && s.disk == EXAMPLE
    requires s.hist.latest == Some(SECOND) && Current(s, SECOND)
    requires "/a/x" in Scope(EXAMPLE, CoverOf(SECOND.newOptions)) && "/a/x" !in s.live
    ensures s.hist.base.Some? && !s.hist.base.value.full && !FoundOldRoots(WorldOf(s), s.hist.base.value)
  {
    hide Initial, IsSteadyRun, Drained, Current, Scope, FoundOldRoots, Outcome;
    AnyOrderExactly(start, run, s);
  }

  lemma NothingLive()
    ensures Elements<Path>([]) == {}
  {
  }

  lemma ExampleDiff()
    ensures DiffOf(SECOND) == RootsDiff(["/b"], []) && AddedOptions(SECOND) == ScanOptions(["/b"], [])
  {
    var o, n := ["/a"], ["/a", "/b"];
    assert "/a" in Elements(o) && "/b" !in Elements(o) && "/a" in Elements(n) by {
      assert o[0] == "/a" && n[0] == "/a";
    }
    assert Minus(n, Elements(o), 0) == [] && Minus(n, Elements(o), 1) == [] && Minus(n, Elements(o), 2) == ["/b"];
    assert Minus(o, Elements(n), 0) == [] && Minus(o, Elements(n), 1) == [];
  }

  lemma ExamplePosed()
    ensures WellPosed(FIRST) && WellPosed(SECOND)
  {
    ExampleDiff();
    assert !IsUnderOrEqual("/a", "/b") && !IsUnderOrEqual("/b", "/a");
  }
}
