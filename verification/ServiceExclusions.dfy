/** What becomes of a request's exclusions: a Settings change compares roots only, so exclusions reach
    what is scanned for the request and nothing else. */
module ServiceExclusions {
  import opened Common
  import opened PathUtils
  import opened WalkTree
  import opened IndexServices
  import opened ServiceModel
  import opened ServiceFrames
  import opened ServiceQueue
  import opened ServiceScope
  import opened ServiceRequests
  import opened ServiceData
  import opened ServiceCoverage
  import opened ServiceAnyOrder
  import opened ServiceRace

  // ----- A change of exclusions alone does nothing -----

  /** Nothing is queued, running or recorded. */
  ghost predicate AtRest(s: State) {
    && s.pc.Waiting? && !s.locked.shuttingDown && s.locked.commands == [] && s.pending == []
    && s.locked.removedDuringScan == [] && !s.locked.scanRunning && !s.busyReported && TokensOk(s.locked)
  }

  function ExclusionChange(s: State, roots: seq<Path>, excluded: seq<Path>): Command {
    Change(roots, ScanOptions(roots, excluded), s.locked.nextToken)
  }

  lemma NothingDiffers(roots: seq<Path>)
    ensures Diff(roots, roots) == RootsDiff([], [])
  {
    DiffAccounts(roots, roots);
    assert forall r :: r in Diff(roots, roots).added ==> r in Elements(Diff(roots, roots).added);
    assert forall r :: r in Diff(roots, roots).removed ==> r in Elements(Diff(roots, roots).removed);
  }

  /** Request and Enqueue, one after the other, and the dequeuing. */
  lemma Requested(s: State, c: Command) returns (run: seq<Label>, s': State)
    requires AtRest(s) && IsBusy(c) && c.token == s.locked.nextToken && WellPosed(c)
    ensures IsSteadyRun(s, run, s')
    ensures s' == s.(locked := Registered(s.locked), pc := Got(c),
                     hist := s.hist.(latest := Some(c), current := Some(c)))
  {
    hide Apply, Enabled, WellPosed, IsSteadyRun, TokensOk;
    RequestIs(s, c);
    var s1 := Apply(s, Request(c));
    EnqueueIs(s1, 0);
    var s2 := Apply(s1, Enqueue(0));
    assert s1.pending == [c] && s2.pending == [] && s2.locked.commands == [c];
    TakeIs(s2);
    s' := Apply(s2, Take);
    assert s'.locked.commands == [];
    SteadyNone(s');
    SteadyThen(s2, Take, [], s');
    var r2 := [Take] + [];
    SteadyThen(s1, Enqueue(0), r2, s');
    var r1 := [Enqueue(0)] + r2;
    SteadyThen(s, Request(c), r1, s');
    run := [Request(c)] + r1;
  }

  lemma DecideNothingIs(s: State)
    requires s.pc.Deciding? && s.pc.c.Change? && !s.needsFullRebuild && DiffOf(s.pc.c) == RootsDiff([], [])
    ensures Enabled(s, Decide(false))
    ensures Apply(s, Decide(false)) == s.(pc := Finishing(s.pc.c, true),
      hist := s.hist.(base := Some(Base(s.pc.c, false, Elements(s.live), Held(s.hist.base)))))
  {
    hide ApplyFiles, ApplyRequest, DiffOf;
  }

  /** From the decision to do nothing to the next wait. */
  lemma NothingDone(s: State) returns (run: seq<Label>, s': State)
    requires s.pc.Deciding? && s.pc.c.Change? && !s.needsFullRebuild && DiffOf(s.pc.c) == RootsDiff([], [])
    requires s.locked.removedDuringScan == []
    ensures IsSteadyRun(s, run, s') && s'.pc.Waiting? && s'.live == s.live && s'.disk == s.disk
    ensures s'.hist.latest == s.hist.latest && s'.pending == s.pending && s'.locked.commands == s.locked.commands
    ensures s'.locked.cancelled == s.locked.cancelled && s'.locked.shuttingDown == s.locked.shuttingDown
    ensures s'.hist.base == Some(Base(s.pc.c, false, Elements(s.live), Held(s.hist.base)))
  {
    hide Apply, Enabled, IsSteadyRun, DiffOf, Held, Elements;
    DecideNothingIs(s);
    var s1 := Apply(s, Decide(false));
    var wrap, s2 := WrapUp(s1);
    var close;
    close, s' := Close(s2);
    SteadyAppend(s1, wrap, s2, close, s');
    SteadyThen(s, Decide(false), wrap + close, s');
    run := [Decide(false)] + (wrap + close);
  }

  /** From every state at rest, a Settings change that alters nothing but the exclusions runs to its
      end uncancelled, drains, and leaves the live index as it was, whatever the exclusions. An index
      that was right is then right for the request if and only if every root contributes the same under
      the exclusions it was last scanned with and under the request's. */
  lemma ExclusionsIgnored(s: State, roots: seq<Path>, excluded: seq<Path>) returns (run: seq<Label>, s': State)
    requires AtRest(s) && !s.needsFullRebuild && Antichain(roots)
    ensures var c := ExclusionChange(s, roots, excluded);
      && IsSteadyRun(s, run, s') && Drained(s') && Current(s', c) && WellPosed(c)
      && s'.hist.base == Some(Base(c, false, Elements(s.live), Held(s.hist.base)))
    ensures s'.live == s.live && s'.disk == s.disk
    ensures var held, own := Held(s.hist.base), CoverOf(ScanOptions(roots, excluded));
      held.Keys == Elements(roots) && Elements(s.live) == Scope(s.disk, held) ==>
        (Elements(s'.live) == Scope(s'.disk, own) <==>
          forall r :: r in held ==> SameContents(s.disk, r, held[r], excluded))
  {
    var c := ExclusionChange(s, roots, excluded);
    NothingDiffers(roots);
    assert DiffOf(c) == RootsDiff([], []) && WellPosed(c);
    NewToken(s);
    hide IsSteadyRun, WellPosed, DiffOf, Held, Elements, TokensOk, Antichain, Diff, Scope, SameContents, CoverOf;
    var first, s1 := Requested(s, c);
    var second, s2 := Open(s1);
    var third;
    third, s' := NothingDone(s2);
    SteadyAppend(s1, second, s2, third, s');
    SteadyAppend(s, first, s1, second + third, s');
    run := first + (second + third);
    ReflectedByChance(s.disk, roots, Held(s.hist.base), excluded);
  }

  lemma ReflectedByChance(disk: Disk, roots: seq<Path>, held: Cover, excluded: seq<Path>)
    requires Antichain(roots)
    ensures held.Keys == Elements(roots) ==>
      (Scope(disk, held) == Scope(disk, CoverOf(ScanOptions(roots, excluded))) <==>
        forall r :: r in held ==> SameContents(disk, r, held[r], excluded))
  {
    hide Scope, SameContents;
    if held.Keys == Elements(roots) {
      SameScope(disk, roots, held, CoverOf(ScanOptions(roots, excluded)));
    }
  }

  lemma NewToken(s: State)
    requires TokensOk(s.locked)
    ensures s.locked.nextToken !in Registered(s.locked).cancelled
  {
  }

  /** An instance: with "/a" indexed on the example disk, excluding "/a/x" leaves it in the index,
      though a scan with the request's own options does not find it. */
  lemma ExcludedStaysLive(s: State) returns (run: seq<Label>, s': State)
    requires AtRest(s) && !s.needsFullRebuild && s.disk == EXAMPLE
    requires Elements(s.live) == Scope(EXAMPLE, CoverOf(ScanOptions(["/a"], [])))
    ensures IsSteadyRun(s, run, s') && Drained(s')
    ensures Current(s', ExclusionChange(s, ["/a"], ["/a/x"]))
    ensures "/a/x" in s'.live && "/a/x" !in Scope(s'.disk, CoverOf(ScanOptions(["/a"], ["/a/x"])))
  {
    hide IsSteadyRun, Drained, Current, AtRest, WellPosed;
    run, s' := ExclusionsIgnored(s, ["/a"], ["/a/x"]);
    ExampleScopes();
    assert "/a/x" in Elements(s.live);
    ExampleExcluded();
  }

  lemma ExampleExcluded()
    ensures "/a/x" !in Scope(EXAMPLE, CoverOf(ScanOptions(["/a"], ["/a/x"])))
  {
    var cover := CoverOf(ScanOptions(["/a"], ["/a/x"]));
    forall r | r in cover ensures !FromRoot(EXAMPLE, cover[r], r, "/a/x") {
      assert r == "/a" && cover[r] == ["/a/x"];
      var t := TreeOf(EXAMPLE, ["/a/x"]);
      assert ["/a/x"][0] == "/a/x";
      assert IsUnderPath("/a/x", "/a/x");
      assert Excluded(t, "/a/x");
      assert !Passes(t, "/a/x");
    }
  }

  // ----- Requests that share their exclusions -----

  /** Every request on its way, and everything covered, has these exclusions. */
  ghost predicate Shares(s: State, excluded: seq<Path>) {
    && (forall c :: InFlight(s, c) && IsBusy(c) ==> OptionsOf(c).excluded == excluded)
    && CoverShares(Held(s.hist.base), excluded)
    && (s.hist.base.Some? ==> CoverShares(s.hist.base.value.held, excluded))
  }

  ghost predicate CoverShares(cover: Cover, excluded: seq<Path>) {
    forall r :: r in cover ==> cover[r] == excluded
  }

  lemma HeldShares(b: Base, excluded: seq<Path>)
    requires OptionsOf(b.c).excluded == excluded && CoverShares(b.held, excluded)
    ensures CoverShares(Held(Some(b)), excluded)
  {
  }

  lemma DecidesFrom(s: State, a: Label)
    requires Enabled(s, a) && Steady(a) && Calm(s)
    ensures a.Decide? ==> s.pc.Deciding? && Apply(s, a).hist.base.Some?
    ensures a.Decide? ==> var b := Apply(s, a).hist.base.value; b.c == s.pc.c && b.held == Held(s.hist.base)
    ensures !a.Decide? ==> Apply(s, a).hist.base == s.hist.base
  {
    DecidingSteps(s, a);
    if ByWorker(a) {
      WorkerCalm(s, a);
    } else {
      OthersStay(s, a);
    }
    hide Apply, Enabled, NeedsScanOfAll, DiffOf, AddedOptions, Held, Elements, Calm;
  }

  lemma StepShares(s: State, a: Label, excluded: seq<Path>)
    requires AnyOrderInv(s) && Shares(s, excluded) && Enabled(s, a) && Steady(a)
    requires a.Request? ==> OptionsOf(a.command).excluded == excluded
    ensures Shares(Apply(s, a), excluded)
  {
    DecidesFrom(s, a);
    hide Apply, Enabled, Steady, Calm, Known, TokensKnown, Tracked, TokensOk, Held, CoverShares, OptionsOf, InFlight;
    var s' := Apply(s, a);
    forall c | InFlight(s', c) && IsBusy(c) ensures OptionsOf(c).excluded == excluded {
      FlightBegins(s, a, c);
    }
    if a.Decide? {
      DecidingInFlight(s);
      HeldShares(s'.hist.base.value, excluded);
    }
  }

  lemma DecidingInFlight(s: State)
    requires s.pc.Deciding? && Known(s)
    ensures InFlight(s, s.pc.c) && IsBusy(s.pc.c)
  {
  }

  lemma {:induction false} RunShares(s: State, run: seq<Label>, s': State, excluded: seq<Path>)
    requires AnyOrderInv(s) && Shares(s, excluded) && IsSteadyRun(s, run, s')
    requires forall i :: 0 <= i < |run| && run[i].Request? ==> OptionsOf(run[i].command).excluded == excluded
    ensures Shares(s', excluded)
    decreases |run|
  {
    hide Apply, Enabled, Steady, AnyOrderInv, Shares, OptionsOf;
    if run != [] {
      StepShares(s, run[0], excluded);
      StepAnyOrder(s, run[0]);
      RunShares(Apply(s, run[0]), run[1..], s', excluded);
    }
  }

  /** Orderly runs without foreign changes and loads are steady. */
  lemma {:induction false} OrderlyIsSteady(s: State, run: seq<Label>, s': State)
    requires IsOrderlyRun(s, run, s') && Antichain(RequestRoots(s.hist.latest))
    requires forall i :: 0 <= i < |run| ==> !Disturbs(run[i])
    ensures IsSteadyRun(s, run, s')
    decreases |run|
  {
    hide Apply, Enabled, Disturbs, Antichain, DropsSlash, FileFits, Busies;
    if run != [] {
      HistoryStep(s, run[0]);
      OrderlyIsSteady(Apply(s, run[0]), run[1..], s');
    }
  }

  lemma SharesAtStart(s: State, excluded: seq<Path>)
    requires Initial(s)
    ensures Shares(s, excluded) && Antichain(RequestRoots(s.hist.latest))
  {
  }

  /** If all requests of an orderly run have the same exclusions, the drained index is the latest
      request's own scan. */
  lemma SharedExclusionsReflected(start: State, run: seq<Label>, s: State, excluded: seq<Path>)
    requires Initial(start) && IsOrderlyRun(start, run, s) && Drained(s)
    requires forall i :: 0 <= i < |run| ==> !Disturbs(run[i])
    requires forall i :: 0 <= i < |run| && run[i].Request? ==> OptionsOf(run[i].command).excluded == excluded
    requires s.hist.latest.Some? && Current(s, s.hist.latest.value)
    ensures Elements(s.live) - s.hist.vanished == Scope(s.disk, CoverOf(OptionsOf(s.hist.latest.value)))
  {
    SharesAtStart(start, excluded);
    InitiallyAnyOrder(start);
    hide Initial, IsOrderlyRun, IsSteadyRun, Disturbs, AnyOrderInv, Drained, Scope, Antichain, Held, CoverOf,
      SameContents;
    OrderlyIsSteady(start, run, s);
    RunShares(start, run, s, excluded);
    RunAnyOrder(start, run, s);
    IndexReflectsLatest(start, run, s);
    LatestShares(s, excluded);
    AllTaken(s.disk, s.hist.base.value, excluded);
  }

  lemma LatestShares(s: State, excluded: seq<Path>)
    requires Shares(s, excluded) && s.hist.base.Some? && IsBusy(s.hist.base.value.c)
    ensures OptionsOf(s.hist.base.value.c).excluded == excluded && CoverShares(s.hist.base.value.held, excluded)
  {
    assert InFlight(s, s.hist.base.value.c);
  }

  lemma AllTaken(disk: Disk, b: Base, excluded: seq<Path>)
    requires OptionsOf(b.c).excluded == excluded && CoverShares(b.held, excluded)
    ensures OptionsTaken(disk, b)
  {
    hide FromRoot;
  }
}
