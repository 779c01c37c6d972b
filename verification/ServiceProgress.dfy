/** No thread gets stuck: in orderly runs the command worker always has a step to take, and from every
    state its own steps, and the enqueuing of what was requested, lead to a drained service. */
module ServiceProgress {
  import opened Common
  import opened PathUtils
  import opened IndexServices
  import opened IndexStores
  import opened ServiceModel
  import opened ServiceFrames
  import opened ServiceQueue
  import opened ServiceScope
  import opened ServiceRequests
  import opened ServiceData
  import opened ServiceCoverage

  /** The worker's next step outside a scan. */
  function NextStep(s: State): Label {
    match s.pc
    case Waiting => if NextCommand(s.locked).Run? then Take else Exit
    case Got(c) => if IsBusy(c) then Enter else if c.Reload? then ClearReload else Skip
    case Entered(_) => Start
    case Deciding(_) => Decide(false)
    case Complete(_) => Swap
    case Removing(c, n) => if n < |DiffOf(c).removed| then RemoveRoot else Serialize
    case Saving(_, _) => Serialize
    case Writing(_, _, _) => Write(true)
    case Finishing(_, _) => Finish
    case Reapplying(_, _, recorded, n) => if n < |recorded| then Reapply else Conclude
    case Concluding(_, _) => Conclude
    case Releasing(_) => Release
    case Loading => LoadFile(false)
    case Reloading(_) => InstallReload
    case Installing(_, _) => Install
    case _ => Report
  }

  lemma NextStepEnabled(s: State)
    requires !s.pc.Gone? && (s.pc.Waiting? ==> !NextCommand(s.locked).Wait?) && !s.pc.Scanning?
    requires s.pc.Removing? ==> s.pc.removed <= |DiffOf(s.pc.c).removed|
    requires s.pc.Reapplying? ==> s.pc.applied <= |s.pc.recorded|
    ensures var a := NextStep(s); Enabled(s, a) && ByWorker(a) && Orderly(s, a) && !Disturbs(a)
  {
    hide Scope, DiffOf, RootsOf;
  }

  lemma StageShape(s: State)
    requires DataOk(s)
    ensures s.pc.Scanning? ==> IsBusy(s.pc.c)
    ensures s.pc.Removing? ==> s.pc.removed <= |DiffOf(s.pc.c).removed|
    ensures s.pc.Reapplying? ==> s.pc.applied <= |s.pc.recorded|
  {
    hide Reflects, FullOk, AddOk, Scope, DiffOf, RootsOf, Antichain, DropsSlash, NoDuplicates, Outside, Held, Continues,
      RowsFit;
    if s.pc.Removing? {
      RemovingParts(WorldOf(s), s.live, s.pc.c, s.hist.base.value.held, s.pc.removed);
    }
  }

  /** What the scan still has to see. */
  ghost function Unseen(s: State): set<Path>
    requires s.pc.Scanning?
  {
    Scope(s.disk, CoverOf(s.pc.job.options)) - s.pc.job.observed
  }

  /** A scan goes on until it has seen its whole scope and handed it over, and can then end. */
  lemma ScanProgresses(s: State) returns (a: Label)
    requires s.pc.Scanning? && IsBusy(s.pc.c)
    ensures Enabled(s, a) && ByWorker(a) && Orderly(s, a) && !Disturbs(a)
    ensures a.Emit? || a.EndScan? || (a.Observe? && a.p in Unseen(s))
  {
    var job := s.pc.job;
    var scope := Scope(s.disk, CoverOf(job.options));
    ScopeCovered(s.disk, CoverOf(job.options));
    ScopeOnDisk(s.disk, CoverOf(job.options));
    hide Scope, DiffOf, CoveredBy, CoverOf;
    if p :| p in job.inHand {
      a := Emit(p);
    } else if p :| !job.changed && p in scope && p !in job.observed {
      a := Observe(p);
    } else {
      a := EndScan;
      assert job.inHand == {};
    }
  }

  /** The command worker always has a step to take that keeps the run orderly: it is never blocked
      while a command is queued or in its hands, whatever the other threads do. */
  lemma WorkerProgresses(s: State) returns (a: Label)
    requires OrderlyInv(s) && !s.pc.Gone? && (s.pc.Waiting? ==> !NextCommand(s.locked).Wait?)
    ensures Enabled(s, a) && ByWorker(a) && Orderly(s, a)
  {
    hide Scope, Queued, TokensOk, DataOk, Enabled, ByWorker, Orderly;
    StageShape(s);
    if s.pc.Scanning? {
      a := ScanProgresses(s);
    } else {
      NextStepEnabled(s);
      a := NextStep(s);
    }
  }

  /** So does the file-operations thread, until it has run every accepted job and been stopped. */
  lemma FilesProgress(s: State) returns (a: Label)
    requires FilesOk(s) && !s.filePc.FileGone? && (s.filePc.FileIdle? ==> !NextJob(s.queue).Wait?)
    ensures Enabled(s, a) && ByFiles(a) && !a.DiskChange? && !a.FileChange?
  {
    hide Scope;
    if s.filePc.FileIdle? {
      a := if NextJob(s.queue).Run? then TakeJob else ExitFiles;
    } else if s.filePc.Operating? {
      a := if s.filePc.at < |s.filePc.job| then Operate(true) else FinishJob;
    } else if s.filePc.Deleted? {
      a := Note;
    } else {
      a := Drop;
    }
  }

  // ----- Every orderly state can be drained -----

  /** How far a command is from its end. */
  function Rank(pc: Pc): nat {
    match pc
    case Waiting => 0
    case Gone => 0
    case Reporting(_) => 1
    case Loading => 2
    case Reloading(_) => 1
    case Releasing(_) => 2
    case Concluding(_, _) => 3
    case Writing(_, save, _) => if save.Final? then 4 else 8
    case Saving(_, save) => if save.Final? then 5 else 9
    case Reapplying(_, _, _, _) => 6
    case Finishing(_, _) => 7
    case Installing(_, _) => 8
    case Complete(_) => 10
    case Removing(_, _) => 10
    case Scanning(_, _, _) => 11
    case Deciding(_) => 12
    case Entered(_) => 13
    case Got(_) => 14
  }

  /** What is left to do within a stage. */
  ghost function Left(s: State): nat {
    match s.pc
    case Removing(c, n) => if n <= |DiffOf(c).removed| then |DiffOf(c).removed| - n else 0
    case Reapplying(_, _, recorded, n) => if n <= |recorded| then |recorded| - n else 0
    case Scanning(_, _, _) => |Unseen(s)|
    case _ => 0
  }

  function InHand(pc: Pc): nat {
    if pc.Scanning? then |pc.job.inHand| else 0
  }

  ghost predicate Nearer(s: State, s': State) {
    || Rank(s'.pc) < Rank(s.pc)
    || (Rank(s'.pc) == Rank(s.pc) && Left(s') < Left(s))
    || (Rank(s'.pc) == Rank(s.pc) && Left(s') == Left(s) && InHand(s'.pc) < InHand(s.pc))
  }

  lemma NextStepNearer(s: State)
    requires !s.pc.Scanning? && !s.pc.Waiting? && Enabled(s, NextStep(s))
    ensures Nearer(s, Apply(s, NextStep(s)))
  {
    hide Apply, Enabled, Left, Rank;
    if s.pc.Removing? && s.pc.removed < |DiffOf(s.pc.c).removed| {
      RemovingNearer(s);
    } else if s.pc.Reapplying? && s.pc.applied < |s.pc.recorded| {
      ReapplyingNearer(s);
    } else if s.pc.Got? || s.pc.Entered? || s.pc.Deciding? {
      OpeningNearer(s);
    } else {
      RankFalls(s);
    }
  }

  lemma RemovingNearer(s: State)
    requires s.pc.Removing? && s.pc.removed < |DiffOf(s.pc.c).removed| && Enabled(s, RemoveRoot)
    ensures Nearer(s, Apply(s, RemoveRoot))
  {
    hide Scope, DiffOf, ApplyFiles, ApplyRequest, NotUnder, Elements, Unseen;
  }

  lemma ReapplyingNearer(s: State)
    requires s.pc.Reapplying? && s.pc.applied < |s.pc.recorded| && Enabled(s, Reapply)
    ensures Nearer(s, Apply(s, Reapply))
  {
    hide Scope, DiffOf, ApplyFiles, ApplyRequest, DropFirst, Elements, Unseen;
  }

  lemma OpeningNearer(s: State)
    requires (s.pc.Got? || s.pc.Entered? || s.pc.Deciding?) && Enabled(s, NextStep(s))
    ensures Rank(Apply(s, NextStep(s)).pc) < Rank(s.pc)
  {
    hide Scope, DiffOf, ApplyFiles, ApplyRequest, Elements, AddedOptions, Held, OptionsOf, NeedsScanOfAll;
  }

  /** The other stages are left behind in one step. */
  lemma RankFalls(s: State)
    requires !s.pc.Scanning? && !s.pc.Waiting? && !s.pc.Got? && !s.pc.Entered? && !s.pc.Deciding?
    requires s.pc.Removing? ==> s.pc.removed >= |DiffOf(s.pc.c).removed|
    requires s.pc.Reapplying? ==> s.pc.applied >= |s.pc.recorded|
    requires Enabled(s, NextStep(s))
    ensures Rank(Apply(s, NextStep(s)).pc) < Rank(s.pc)
  {
    hide Apply, Enabled, Rank, NextStep;
    if s.pc.Complete? || s.pc.Removing? || s.pc.Saving? || s.pc.Writing? {
      WritingFalls(s);
    } else if s.pc.Finishing? || s.pc.Reapplying? || s.pc.Concluding? {
      FinishingFalls(s);
    } else {
      ClosingFalls(s);
    }
  }

  lemma WritingFalls(s: State)
    requires s.pc.Complete? || s.pc.Removing? || s.pc.Saving? || s.pc.Writing?
    requires s.pc.Removing? ==> s.pc.removed >= |DiffOf(s.pc.c).removed|
    requires Enabled(s, NextStep(s))
    ensures Rank(Apply(s, NextStep(s)).pc) < Rank(s.pc)
  {
    hide Scope, DiffOf, ApplyFiles, ApplyRequest, Elements, Decided, ScanEnded, NotUnder, DropFirst;
  }

  lemma FinishingFalls(s: State)
    requires s.pc.Finishing? || s.pc.Reapplying? || s.pc.Concluding?
    requires s.pc.Reapplying? ==> s.pc.applied >= |s.pc.recorded|
    requires Enabled(s, NextStep(s))
    ensures Rank(Apply(s, NextStep(s)).pc) < Rank(s.pc)
  {
    hide Scope, DiffOf, ApplyFiles, ApplyRequest, Elements, Decided, ScanEnded, NotUnder, DropFirst;
  }

  lemma ClosingFalls(s: State)
    requires s.pc.Installing? || s.pc.Releasing? || s.pc.Reporting? || s.pc.Loading? || s.pc.Reloading? || s.pc.Gone?
    requires Enabled(s, NextStep(s))
    ensures Rank(Apply(s, NextStep(s)).pc) < Rank(s.pc)
  {
    hide Scope, DiffOf, ApplyFiles, ApplyRequest, Elements, Decided, ScanEnded, NotUnder, DropFirst;
  }

  lemma ScanNearer(s: State, a: Label)
    requires s.pc.Scanning? && Enabled(s, a) && (a.Emit? || a.EndScan? || (a.Observe? && a.p in Unseen(s)))
    ensures Nearer(s, Apply(s, a))
  {
    hide Apply, Enabled, Nearer, Unseen;
    match a
    case Observe(p) => ObserveNearer(s, p);
    case Emit(p) => EmitNearer(s, p);
    case _ => EndScanNearer(s);
  }

  lemma ObserveNearer(s: State, p: Path)
    requires s.pc.Scanning? && Enabled(s, Observe(p)) && p in Unseen(s)
    ensures Nearer(s, Apply(s, Observe(p)))
  {
    hide Scope, ApplyFiles, ApplyRequest, CoverOf, CoveredBy;
    var s' := Apply(s, Observe(p));
    assert s'.pc == s.pc.(job := s'.pc.job) && s'.disk == s.disk;
    assert s'.pc.job.options == s.pc.job.options && s'.pc.job.observed == s.pc.job.observed + {p};
    hide Apply, ApplyWorker, Enabled;
    assert Unseen(s') == Unseen(s) - {p};
    hide Unseen;
    assert |Unseen(s) - {p}| < |Unseen(s)|;
  }

  lemma EmitNearer(s: State, p: Path)
    requires s.pc.Scanning? && Enabled(s, Emit(p))
    ensures Nearer(s, Apply(s, Emit(p)))
  {
    hide Scope, ApplyFiles, ApplyRequest, CoverOf, Elements;
    var s' := Apply(s, Emit(p));
    assert s'.pc == s.pc.(job := s.pc.job.(inHand := s.pc.job.inHand - {p})) && s'.disk == s.disk;
    assert p in s.pc.job.inHand;
    hide Apply, ApplyWorker, Enabled;
    assert Unseen(s') == Unseen(s);
    hide Unseen;
    assert |s.pc.job.inHand - {p}| < |s.pc.job.inHand|;
  }

  lemma EndScanNearer(s: State)
    requires s.pc.Scanning? && Enabled(s, EndScan)
    ensures Nearer(s, Apply(s, EndScan))
  {
    hide Apply, Enabled, Left, Rank, ScanEnded;
    DecidingSteps(s, EndScan);
    EndedRank(s);
  }

  lemma EndedRank(s: State)
    requires s.pc.Scanning? && IsBusy(s.pc.c)
    ensures Rank(ScanEnded(s).pc) < Rank(s.pc)
  {
  }

  /** A step that keeps the run orderly and brings the drained state nearer: it enqueues what was
      requested, dequeues, or carries the current command on. */
  lemma DrainStep(s: State) returns (a: Label)
    requires OrderlyInv(s) && !s.pc.Gone? && !s.locked.shuttingDown
    requires !(s.pc.Waiting? && s.pending == [] && s.locked.commands == [])
    ensures Enabled(s, a) && Orderly(s, a) && !Disturbs(a) && !ChangesDisk(a) && !a.Request? && !a.Shutdown? && !a.Exit?
    ensures if s.pending != [] then a == Enqueue(0) else if s.pc.Waiting? then a.Take? else
      ByWorker(a) && !a.Take? && Nearer(s, Apply(s, a))
  {
    if s.pending != [] {
      a := Enqueue(0);
      assert s.pending[..0] == [];
    } else {
      hide Scope, Queued, TokensOk, DataOk, Enabled, Orderly, Apply, Nearer, DiffOf;
      StageShape(s);
      if s.pc.Scanning? {
        a := ScanProgresses(s);
        ScanNearer(s, a);
      } else {
        NextStepEnabled(s);
        a := NextStep(s);
        if !s.pc.Waiting? {
          NextStepNearer(s);
        }
      }
    }
  }

  /** What a draining step does to the queues. */
  lemma DrainFrame(s: State, a: Label)
    requires Enabled(s, a) && !a.Request? && !a.Shutdown? && !a.Exit?
    requires if s.pending != [] then a == Enqueue(0) else if s.pc.Waiting? then a.Take? else ByWorker(a) && !a.Take?
    requires !s.locked.shuttingDown && !s.pc.Gone?
    ensures var s' := Apply(s, a);
      && !s'.locked.shuttingDown && s'.hist.latest == s.hist.latest && !s'.pc.Gone?
      && (s.pending != [] ==> |s'.pending| < |s.pending|)
      && (s.pending == [] ==> s'.pending == [])
      && (a.Take? ==> |s'.locked.commands| < |s.locked.commands|)
      && (s.pending == [] && !a.Take? ==> s'.locked.commands == s.locked.commands)
  {
    StepFrame(s, a);
    HistoryStep(s, a);
    PhaseStep(s, a);
    StaysThere(s, a);
    hide Apply, Enabled;
  }

  lemma StaysThere(s: State, a: Label)
    requires Enabled(s, a) && !a.Exit? && !s.pc.Gone? && (ByWorker(a) || a.Enqueue?)
    ensures !Apply(s, a).pc.Gone?
  {
    hide Scope, DiffOf, RootsOf, ApplyFiles, NotUnder, DropFirst, Elements, AddedOptions, Held, OptionsOf,
      NeedsScanOfAll;
  }

  lemma OrderlyThen(s: State, a: Label, run: seq<Label>, s': State)
    requires Enabled(s, a) && Orderly(s, a) && IsOrderlyRun(Apply(s, a), run, s')
    ensures IsOrderlyRun(s, [a] + run, s')
  {
    hide Apply, Enabled, Orderly;
    assert ([a] + run)[1..] == run;
  }

  lemma OrderlyStep(s: State, a: Label)
    requires OrderlyInv(s) && Enabled(s, a) && Orderly(s, a)
    ensures OrderlyInv(Apply(s, a))
  {
    hide TokensOk, Queued, DataOk, Apply, Enabled, Orderly;
    StepTokens(s, a);
    StepQueued(s, a);
    StepData(s, a);
  }

  /** From every orderly state short of a shutdown a run leads to a state with nothing queued, pending or
      in the worker's hands. The run makes no request, changes no disk and loads nothing, so the latest
      request is still the latest. */
  lemma {:induction false} CanDrain(s: State) returns (run: seq<Label>, s': State)
    requires OrderlyInv(s) && !s.pc.Gone? && !s.locked.shuttingDown
    ensures IsOrderlyRun(s, run, s') && OrderlyInv(s') && Drained(s') && s'.pending == [] && s'.locked.commands == []
    ensures s'.hist.latest == s.hist.latest
    ensures forall i :: 0 <= i < |run| ==> !Disturbs(run[i]) && !ChangesDisk(run[i]) && !run[i].Request?
    decreases |s.pending|, |s.locked.commands|, Rank(s.pc), Left(s), InHand(s.pc)
  {
    hide TokensOk, Queued, DataOk, Apply, Enabled, Orderly, Disturbs, ChangesDisk, Unseen, Left, Rank;
    if s.pc.Waiting? && s.pending == [] && s.locked.commands == [] {
      run, s' := [], s;
    } else {
      var a := DrainStep(s);
      DrainFrame(s, a);
      OrderlyStep(s, a);
      var rest;
      rest, s' := CanDrain(Apply(s, a));
      OrderlyThen(s, a, rest, s');
      run := [a] + rest;
    }
  }
}
