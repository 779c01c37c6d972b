/** What the index file holds after a command: everything the command did to the live index, the removals
    recorded during its scan included, has been saved when it ends. */
module ServicePersistence {
  import opened Common
  import opened PathUtils
  import opened IndexStores
  import opened IndexServices
  import opened ServiceModel
  import opened ServiceFrames
  import opened ServiceQueue
  import opened ServiceRemoval

  // ----- Book-keeping on a run -----

  /** What can be read off a run. `recorded`: the paths removed while scanRunning_ was set, since the last
      command began. `clean`: the last save replaced the file and nobody else has written it since.
      `image` and `dropped`: the live index when it was last serialized, and what the file thread has
      dropped since. `unsaved`: the worker has changed the live index, or applied a removal again, since
      the last save. `loaded`: the live index was loaded, not built, since the last save, or nothing was
      ever saved. `rewritten`: a save has followed the last removal applied again. `completed`: the last
      command has ended and was not cancelled. */
  datatype Ledger = Ledger(
    recorded: set<Path>, clean: bool, image: seq<Path>, dropped: seq<Path>, unsaved: bool, loaded: bool,
    rewritten: bool, completed: bool)

  const BLANK := Ledger({}, false, [], [], false, true, false, false)

  ghost function Booked(l: Ledger, s: State, a: Label): Ledger
    requires Enabled(s, a)
  {
    var s' := Apply(s, a);
    match a
    case Start => l.(recorded := {}, completed := false)
    case Note =>
      if s.locked.scanRunning then l.(recorded := l.recorded + {s.filePc.job[s.filePc.at]}) else l
    case Drop => l.(dropped := l.dropped + [s.filePc.job[s.filePc.at]])
    case FileChange(_) => l.(clean := false)
    case Serialize => l.(image := s.live, dropped := [])
    case Write(ok) => l.(clean := ok, unsaved := false, loaded := false, rewritten := true)
    case Install => l.(unsaved := false, loaded := true)
    case InstallReload => l.(unsaved := false, loaded := true)
    case Finish => l.(rewritten := false)
    case Reapply => l.(unsaved := true, rewritten := false)
    case Conclude => l.(completed := s'.pc.Releasing? && !s'.needsFullRebuild)
    case _ => l.(unsaved := l.unsaved || (ByWorker(a) && s'.live != s.live))
  }

  ghost function LedgerAfter(s: State, l: Ledger, run: seq<Label>): Ledger
    decreases |run|
  {
    if run == [] || !Enabled(s, run[0]) then l
    else LedgerAfter(Apply(s, run[0]), Booked(l, s, run[0]), run[1..])
  }

  // ----- The file and the live index -----

  /** No command is between its start and its end. */
  predicate AtRest(pc: Pc) {
    match pc
    case Waiting => true
    case Got(_) => true
    case Entered(_) => true
    case Releasing(_) => true
    case Reporting(_) => true
    case Loading => true
    case Reloading(_) => true
    case Gone => true
    case _ => false
  }

  ghost predicate ImageOk(s: State, l: Ledger) {
    s.live == DropEach(l.image, l.dropped, |l.dropped|)
  }

  /** What is known of unsaved changes at each stage. */
  ghost predicate StageSaved(s: State, l: Ledger) {
    match s.pc
    case Deciding(_) => !s.needsFullRebuild ==> !l.unsaved
    case Scanning(_, full, _) => true
    case Complete(_) => true
    case Removing(_, _) => true
    case Saving(_, _) => true
    case Writing(_, _, image) => image == l.image && ImageOk(s, l)
    case Installing(_, _) => true
    case Finishing(_, completed) => completed ==> !l.unsaved
    case Reapplying(_, completed, recorded, _) => completed && l.unsaved ==> recorded != []
    case Concluding(_, completed) => completed ==> !l.unsaved
    case _ => !s.needsFullRebuild ==> !l.unsaved
  }

  ghost predicate SavedOk(s: State, l: Ledger) {
    && StageSaved(s, l)
    && (!l.loaded && !l.unsaved && !s.pc.Writing? ==> ImageOk(s, l))
    && (!l.loaded && l.clean && !s.pc.Writing? && !l.unsaved ==> s.file == Some(l.image))
  }

  lemma RequesterSaved(s: State, l: Ledger, a: Label)
    requires SavedOk(s, l) && Enabled(s, a) && ByRequester(a)
    ensures SavedOk(Apply(s, a), Booked(l, s, a))
  {
    hide ApplyWorker, ApplyFiles, DropEach, Scope, Elements;
  }

  lemma DropImage(image: seq<Path>, dropped: seq<Path>, p: Path)
    ensures DropEach(image, dropped + [p], |dropped| + 1) == DropFirst(DropEach(image, dropped, |dropped|), p)
  {
    SameDrops(image, dropped, [p], |dropped|);
  }

  lemma {:induction false} SameDrops(image: seq<Path>, dropped: seq<Path>, more: seq<Path>, n: nat)
    requires n <= |dropped|
    ensures DropEach(image, dropped + more, n) == DropEach(image, dropped, n)
  {
    if n > 0 {
      SameDrops(image, dropped, more, n - 1);
    }
  }

  lemma DropSaved(s: State, l: Ledger)
    requires SavedOk(s, l) && Enabled(s, Drop)
    ensures SavedOk(Apply(s, Drop), Booked(l, s, Drop))
  {
    hide ApplyWorker, ApplyRequest, DropEach, Scope, Elements, Altered, DropFirst;
    DropImage(l.image, l.dropped, s.filePc.job[s.filePc.at]);
  }

  lemma FilesSaved(s: State, l: Ledger, a: Label)
    requires SavedOk(s, l) && Enabled(s, a) && ByFiles(a)
    ensures SavedOk(Apply(s, a), Booked(l, s, a))
  {
    hide SavedOk, Apply, Enabled, Booked;
    if a.Drop? {
      DropSaved(s, l);
    } else if ChangesDisk(a) {
      AlteredSaved(s, l, a);
    } else {
      QuietSaved(s, l, a);
    }
  }

  lemma AlteredSaved(s: State, l: Ledger, a: Label)
    requires SavedOk(s, l) && Enabled(s, a) && ChangesDisk(a)
    ensures SavedOk(Apply(s, a), Booked(l, s, a))
  {
    AlteringSteps(s, a);
    hide Apply, Enabled, DropEach, Without, Elements;
  }

  lemma QuietSaved(s: State, l: Ledger, a: Label)
    requires SavedOk(s, l) && Enabled(s, a) && ByFiles(a) && !ChangesDisk(a) && !a.Drop?
    ensures SavedOk(Apply(s, a), Booked(l, s, a))
  {
    hide ApplyWorker, ApplyRequest, DropEach, Scope, Elements, DropFirst, Without, Altered;
  }

  lemma WorkerSaved(s: State, l: Ledger, a: Label)
    requires SavedOk(s, l) && Enabled(s, a) && ByWorker(a)
    ensures SavedOk(Apply(s, a), Booked(l, s, a))
  {
    hide SavedOk, Apply, Enabled, Booked;
    match a
    case Decide(recent) => DecideSaved(s, l, recent);
    case EndScan => EndScanSaved(s, l);
    case Serialize => SavingSaved(s, l, a);
    case Write(_) => SavingSaved(s, l, a);
    case Finish => SavingSaved(s, l, a);
    case Reapply => SavingSaved(s, l, a);
    case Conclude => SavingSaved(s, l, a);
    case _ => OtherSaved(s, l, a);
  }

  lemma SavingSaved(s: State, l: Ledger, a: Label)
    requires SavedOk(s, l) && Enabled(s, a)
    requires a.Serialize? || a.Write? || a.Finish? || a.Reapply? || a.Conclude?
    ensures SavedOk(Apply(s, a), Booked(l, s, a))
  {
    hide ApplyFiles, ApplyRequest, Scope, Elements, DropFirst, NotUnder, Decided, ScanEnded, DiffOf;
  }

  lemma OtherSaved(s: State, l: Ledger, a: Label)
    requires SavedOk(s, l) && Enabled(s, a) && ByWorker(a) && !a.Decide? && !a.EndScan?
    requires !a.Serialize? && !a.Write? && !a.Finish? && !a.Reapply? && !a.Conclude?
    ensures SavedOk(Apply(s, a), Booked(l, s, a))
  {
    hide ApplyFiles, ApplyRequest, Scope, Elements, DropFirst, NotUnder, Decided, ScanEnded, DiffOf;
  }

  lemma DecideSaved(s: State, l: Ledger, recent: bool)
    requires SavedOk(s, l) && Enabled(s, Decide(recent))
    ensures SavedOk(Apply(s, Decide(recent)), Booked(l, s, Decide(recent)))
  {
    DecidingSteps(s, Decide(recent));
    hide Apply, Enabled, DropEach, DiffOf, Held, AddedOptions, OptionsOf, Elements;
  }

  lemma EndScanSaved(s: State, l: Ledger)
    requires SavedOk(s, l) && Enabled(s, EndScan)
    ensures SavedOk(Apply(s, EndScan), Booked(l, s, EndScan))
  {
    DecidingSteps(s, EndScan);
    hide Apply, Enabled, DropEach;
  }

  lemma StepSaved(s: State, l: Ledger, a: Label)
    requires SavedOk(s, l) && Enabled(s, a)
    ensures SavedOk(Apply(s, a), Booked(l, s, a))
  {
    hide SavedOk, Apply, Enabled, Booked;
    if ByRequester(a) {
      RequesterSaved(s, l, a);
    } else if ByFiles(a) {
      FilesSaved(s, l, a);
    } else {
      WorkerSaved(s, l, a);
    }
  }

  lemma {:induction false} RunSaved(s: State, l: Ledger, run: seq<Label>, s': State)
    requires SavedOk(s, l) && IsRun(s, run, s')
    ensures SavedOk(s', LedgerAfter(s, l, run))
    decreases |run|
  {
    hide SavedOk, Apply, Enabled, Booked;
    if run != [] {
      StepSaved(s, l, run[0]);
      RunSaved(Apply(s, run[0]), Booked(l, s, run[0]), run[1..], s');
    }
  }

  lemma InitiallySaved(s: State)
    requires Initial(s)
    ensures SavedOk(s, BLANK)
  {
  }

  /** Main theorem, over every run of any requesters. Between commands, unless needsFullRebuild_ is set,
      everything the worker did to the live index and every removal it applied again has been saved; and
      unless a load came after the last save, if that save replaced the file and nobody else wrote it
      since, the live index is exactly what the file holds without what the file thread has dropped since. */
  lemma CompletedIsSaved(start: State, run: seq<Label>, s: State)
    requires Initial(start) && IsRun(start, run, s) && AtRest(s.pc) && !s.needsFullRebuild
    ensures var l := LedgerAfter(start, BLANK, run);
      && !l.unsaved
      && (!l.loaded && l.clean ==> s.file.Some? && s.live == DropEach(s.file.value, l.dropped, |l.dropped|))
  {
    InitiallySaved(start);
    RunSaved(start, BLANK, run, s);
    hide DropEach, Initial, IsRun, LedgerAfter;
  }

  /** In particular the two hold the same paths but for those, if the file lists none twice. */
  lemma FileMatchesIndex(start: State, run: seq<Label>, s: State)
    requires Initial(start) && IsRun(start, run, s) && AtRest(s.pc) && !s.needsFullRebuild
    ensures var l := LedgerAfter(start, BLANK, run);
      !l.loaded && l.clean && s.file.Some? && NoDuplicates(s.file.value) ==>
        forall p :: p in s.live <==> p in s.file.value && p !in l.dropped
  {
    CompletedIsSaved(start, run, s);
    hide DropEach, Initial, IsRun, LedgerAfter;
    if s.file.Some? {
      DropEachUnique(s.file.value, LedgerAfter(start, BLANK, run).dropped);
    }
  }

  // ----- Recorded removals -----

  /** The removals recorded during a command are in its hands until a save without them. */
  ghost predicate RecordOk(s: State, l: Ledger) {
    && (s.locked.scanRunning ==> l.recorded == Elements(s.locked.removedDuringScan))
    && (s.pc.Reapplying? ==> l.recorded == Elements(s.pc.recorded))
    && (s.pc.Saving? && s.pc.save.Final? ==> l.recorded == Elements(s.pc.save.recorded))
    && (s.pc.Writing? && s.pc.save.Final? ==> l.recorded == Elements(s.pc.save.recorded))
    && (s.pc.Concluding? && s.pc.completed ==> RecordSaved(s, l))
    && (!s.pc.Concluding? && !AtRest(s.pc) ==> !l.completed)
    && (l.completed ==> RecordSaved(s, l))
  }

  ghost predicate RecordSaved(s: State, l: Ledger) {
    l.recorded != {} ==>
      l.rewritten && (l.clean ==> s.file.Some? && forall g :: g in l.recorded ==> g !in s.file.value)
  }

  lemma RequesterRecord(s: State, l: Ledger, a: Label)
    requires RecordOk(s, l) && Enabled(s, a) && ByRequester(a)
    ensures RecordOk(Apply(s, a), Booked(l, s, a))
  {
    hide ApplyWorker, ApplyFiles, Scope, Elements;
  }

  lemma FilesRecord(s: State, l: Ledger, a: Label)
    requires RecordOk(s, l) && FlagOk(s) && Enabled(s, a) && ByFiles(a)
    ensures RecordOk(Apply(s, a), Booked(l, s, a))
  {
    hide RecordOk, FlagOk, Apply, Enabled, Booked;
    if a.Note? {
      NoteRecord(s, l);
    } else if ChangesDisk(a) {
      AlteredRecord(s, l, a);
    } else {
      QuietRecord(s, l, a);
    }
  }

  lemma NoteRecord(s: State, l: Ledger)
    requires RecordOk(s, l) && FlagOk(s) && Enabled(s, Note)
    ensures RecordOk(Apply(s, Note), Booked(l, s, Note))
  {
    hide ApplyWorker, ApplyRequest, Scope, DropFirst, Without;
  }

  lemma AlteredRecord(s: State, l: Ledger, a: Label)
    requires RecordOk(s, l) && Enabled(s, a) && ChangesDisk(a)
    ensures RecordOk(Apply(s, a), Booked(l, s, a))
  {
    AlteringSteps(s, a);
    hide Apply, Enabled, Without, Elements;
  }

  lemma QuietRecord(s: State, l: Ledger, a: Label)
    requires RecordOk(s, l) && Enabled(s, a) && ByFiles(a) && !ChangesDisk(a) && !a.Note?
    ensures RecordOk(Apply(s, a), Booked(l, s, a))
  {
    hide ApplyWorker, ApplyRequest, Scope, Elements, DropFirst, Without, Altered;
  }

  lemma WorkerRecord(s: State, l: Ledger, a: Label)
    requires RecordOk(s, l) && FlagOk(s) && FinalOk(s) && Enabled(s, a) && ByWorker(a)
    ensures RecordOk(Apply(s, a), Booked(l, s, a))
  {
    hide RecordOk, FlagOk, FinalOk, Apply, Enabled, Booked;
    match a
    case Decide(recent) => DecidingRecord(s, l, a);
    case EndScan => DecidingRecord(s, l, a);
    case Start => OpeningRecord(s, l, a);
    case Finish => OpeningRecord(s, l, a);
    case Reapply => OpeningRecord(s, l, a);
    case Serialize => SavingRecord(s, l, a);
    case Write(_) => SavingRecord(s, l, a);
    case Conclude => SavingRecord(s, l, a);
    case _ => OtherRecord(s, l, a);
  }

  lemma DecidingRecord(s: State, l: Ledger, a: Label)
    requires RecordOk(s, l) && Enabled(s, a) && (a.Decide? || a.EndScan?)
    ensures RecordOk(Apply(s, a), Booked(l, s, a))
  {
    hide Apply, Enabled, RecordOk;
    DecidingSteps(s, a);
    if a.Decide? {
      DecidedRecord(s, l, a.recent);
    } else {
      EndedRecord(s, l);
    }
  }

  lemma DecidedRecord(s: State, l: Ledger, recent: bool)
    requires RecordOk(s, l) && s.pc.Deciding? && (recent ==> s.file.Some?)
    ensures RecordOk(Decided(s, recent), l.(unsaved := l.unsaved || Decided(s, recent).live != s.live))
  {
    hide Elements, DiffOf, Held, AddedOptions, OptionsOf, NeedsScanOfAll;
  }

  lemma EndedRecord(s: State, l: Ledger)
    requires RecordOk(s, l) && s.pc.Scanning? && IsBusy(s.pc.c)
    ensures RecordOk(ScanEnded(s), l.(unsaved := l.unsaved || ScanEnded(s).live != s.live))
  {
    hide Elements;
  }

  lemma OpeningRecord(s: State, l: Ledger, a: Label)
    requires RecordOk(s, l) && FlagOk(s) && Enabled(s, a) && (a.Start? || a.Finish? || a.Reapply?)
    ensures RecordOk(Apply(s, a), Booked(l, s, a))
  {
    hide ApplyFiles, ApplyRequest, Scope, DropFirst, NotUnder, Decided, ScanEnded, DiffOf;
  }

  lemma SavingRecord(s: State, l: Ledger, a: Label)
    requires RecordOk(s, l) && FlagOk(s) && FinalOk(s) && Enabled(s, a) && (a.Serialize? || a.Write? || a.Conclude?)
    ensures RecordOk(Apply(s, a), Booked(l, s, a))
  {
    hide ApplyFiles, ApplyRequest, Scope, DropFirst, NotUnder, Decided, ScanEnded, DiffOf;
  }

  lemma OtherRecord(s: State, l: Ledger, a: Label)
    requires RecordOk(s, l) && FlagOk(s) && Enabled(s, a) && ByWorker(a) && !a.Decide? && !a.EndScan? && !a.Start?
    requires !a.Finish? && !a.Reapply? && !a.Serialize? && !a.Write? && !a.Conclude?
    ensures RecordOk(Apply(s, a), Booked(l, s, a))
  {
    hide ApplyFiles, ApplyRequest, Scope, Elements, DropFirst, NotUnder, Decided, ScanEnded, DiffOf;
  }

  lemma StepRecord(s: State, l: Ledger, a: Label)
    requires RecordOk(s, l) && RemovalOk(s) && Enabled(s, a)
    ensures RecordOk(Apply(s, a), Booked(l, s, a))
  {
    hide RecordOk, FlagOk, FinalOk, GoneOk, SettledOk, RevivedOk, Apply, Enabled, Booked;
    if ByRequester(a) {
      RequesterRecord(s, l, a);
    } else if ByFiles(a) {
      FilesRecord(s, l, a);
    } else {
      WorkerRecord(s, l, a);
    }
  }

  lemma {:induction false} RunRecord(s: State, l: Ledger, run: seq<Label>, s': State)
    requires RecordOk(s, l) && RemovalOk(s) && IsUnrepeatedRun(s, run, s')
    ensures RecordOk(s', LedgerAfter(s, l, run))
    decreases |run|
  {
    hide RecordOk, RemovalOk, Apply, Enabled, Booked, Unrepeated;
    if run != [] {
      StepRecord(s, l, run[0]);
      StepRemoval(s, run[0]);
      RunRecord(Apply(s, run[0]), Booked(l, s, run[0]), run[1..], s');
    }
  }

  lemma InitiallyRecorded(s: State)
    requires Initial(s)
    ensures RecordOk(s, BLANK)
  {
  }

  /** Main theorem, over every run in which removals meet a store that lists their path at most once. A
      command that completed with recorded removals has saved the index again after the last of them was
      applied again; and as long as its last save has replaced the file and nobody else has written the
      file since, none of the recorded paths is in it. */
  lemma RecordedIsSaved(start: State, run: seq<Label>, s: State)
    requires Initial(start) && IsUnrepeatedRun(start, run, s)
    ensures var l := LedgerAfter(start, BLANK, run);
      l.completed && l.recorded != {} ==>
        l.rewritten && (l.clean ==> s.file.Some? && forall g :: g in l.recorded ==> g !in s.file.value)
  {
    InitialRemoval(start);
    InitiallyRecorded(start);
    RunRecord(start, BLANK, run, s);
    hide Initial, IsUnrepeatedRun, LedgerAfter;
  }

  // ----- The removals applied again -----

  lemma ReapplyIs(s: State)
    requires s.pc.Reapplying? && s.pc.applied < |s.pc.recorded|
    ensures Enabled(s, Reapply)
    ensures Apply(s, Reapply)
      == Relisted(s, DropFirst(s.live, s.pc.recorded[s.pc.applied])).(pc := s.pc.(applied := s.pc.applied + 1))
  {
    hide ApplyFiles, ApplyRequest;
  }

  /** From FinishScan's section on, the steps that apply the recorded removals again leave what the
      method FinishScan leaves: one copy fewer of each recorded path, as often as it was recorded. */
  lemma {:induction false} ReapplyAll(s: State, n: nat) returns (run: seq<Label>, s': State)
    requires s.pc.Reapplying? && s.pc.applied == 0 && n <= |s.pc.recorded|
    ensures IsRun(s, run, s') && |run| == n && forall i :: 0 <= i < n ==> run[i] == Reapply
    ensures s'.pc == s.pc.(applied := n) && s'.live == DropEach(s.live, s.pc.recorded, n)
  {
    hide IsRun, Apply, Enabled, DropFirst;
    if n == 0 {
      run, s' := [], s;
      NoStep(s);
    } else {
      var before, middle := ReapplyAll(s, n - 1);
      ReapplyIs(middle);
      s' := Apply(middle, Reapply);
      NoStep(s');
      RunThen(middle, Reapply, [], s');
      RunAppend(s, before, middle, [Reapply] + [], s');
      run := before + ([Reapply] + []);
    }
  }

  lemma NoStep(s: State)
    ensures IsRun(s, [], s)
  {
  }

  lemma ReappliedCopies(s: State) returns (run: seq<Label>, s': State)
    requires s.pc.Reapplying? && s.pc.applied == 0
    ensures IsRun(s, run, s') && s'.pc == s.pc.(applied := |s.pc.recorded|)
    ensures forall p :: Copies(s'.live, p) == LeftOver(Copies(s.live, p), Copies(s.pc.recorded, p))
  {
    hide IsRun;
    run, s' := ReapplyAll(s, |s.pc.recorded|);
    DropEachAll(s.live, s.pc.recorded);
  }
}
