/** The helper's poll loop of src/helper/main_helper.cpp:297-353 with the monitor threads that change
    the store under it: no live change is lost, and the one way a change can be. */
module HelperLoop {
  import opened Common
  import opened IndexPools
  import opened IndexSerializer
  import opened SaveThrottles

  /** What a save writes: the pool it serialized, with the two timestamps. */
  datatype Snapshot = Snapshot(pool: Pool, build: u64, stop: u64)

  datatype Pc =
    | Top
    | Clearing(now: u64)
    | Serializing
    | Writing(image: Snapshot)
    | Remarking
    | Recording
    | Rebuilding
    | RebuildSerializing
    | RebuildWriting(image: Snapshot)
    | RebuildSaved
    | Exiting
    | FinalWriting(image: Snapshot)
    | Done

  /** The last rebuild: the store its scan produced, and the file as it was then. */
  datatype Rebuild = Rebuild(store: Pool, file: Option<Snapshot>)

  /** `pending` counts the mutations whose notification has not run yet. `file` is what the last
      save that replaced the file wrote. `lost` and `rebuild` are history: `lost` says that the last
      rebuild's save did not replace the file and that no save has since. */
  datatype State = State(
    store: Pool, throttle: Throttle, pending: nat, pc: Pc, file: Option<Snapshot>, lost: bool, rebuild: Option<Rebuild>)

  datatype Label =
    // the monitor threads
    | Mutate(changed: Pool)
    | Notify
    // the poll loop
    | Check(now: u64)
    | Clear
    | Serialize(build: u64, stop: u64)
    // a save can replace the file and still report failure, when the directory cannot be synced
    | Write(replaced: bool, ok: bool)
    | Remark
    | Measure(duration: u64)
    | JoinForRebuild
    | Rescan(scanned: Pool)
    | MarkSaved(now: u64)
    | JoinForExit
    | Leave

  /** The monitor threads run beside these stages; elsewhere they have been joined. */
  predicate Monitored(pc: Pc) {
    pc.Top? || pc.Clearing? || pc.Serializing? || pc.Writing? || pc.Remarking? || pc.Recording?
  }

  predicate Enabled(s: State, a: Label) {
    match a
    case Mutate(_) => Monitored(s.pc)
    case Notify => s.pending > 0
    case Check(_) => s.pc.Top?
    case Clear => s.pc.Clearing?
    case Serialize(_, _) => s.pc.Serializing? || s.pc.RebuildSerializing? || (s.pc.Exiting? && s.throttle.dirty)
    case Write(replaced, ok) =>
      (s.pc.Writing? || s.pc.RebuildWriting? || s.pc.FinalWriting?) && (ok ==> replaced)
    case Remark => s.pc.Remarking?
    case Measure(_) => s.pc.Recording?
    case JoinForRebuild => s.pc.Top? && s.pending == 0
    case Rescan(_) => s.pc.Rebuilding?
    case MarkSaved(_) => s.pc.RebuildSaved?
    case JoinForExit => s.pc.Top? && s.pending == 0
    case Leave => s.pc.Exiting? && !s.throttle.dirty
  }

  function Apply(s: State, a: Label): State
    requires Enabled(s, a)
  {
    match a
    case Mutate(changed) => s.(store := changed, pending := s.pending + 1)
    case Notify => s.(throttle := s.throttle.(dirty := true), pending := s.pending - 1)
    case Check(now) => if IsDue(s.throttle, now) then s.(pc := Clearing(now)) else s
    case Clear => s.(throttle := Started(s.throttle, s.pc.now), pc := Serializing)
    case Serialize(build, stop) =>
      var image := Snapshot(s.store, build, stop);
      s.(pc := if s.pc.Serializing? then Writing(image)
               else if s.pc.RebuildSerializing? then RebuildWriting(image) else FinalWriting(image))
    case Write(replaced, ok) =>
      s.(file := if replaced then Some(s.pc.image) else s.file,
         lost := !replaced && (s.lost || s.pc.RebuildWriting?),
         pc := if s.pc.Writing? then (if ok then Recording else Remarking)
               else if s.pc.RebuildWriting? then RebuildSaved else Done)
    case Remark => s.(throttle := s.throttle.(dirty := true), pc := Recording)
    case Measure(duration) => s.(throttle := Recorded(s.throttle, duration), pc := Top)
    case JoinForRebuild => s.(pc := Rebuilding)
    case Rescan(scanned) =>
      s.(store := scanned, pc := RebuildSerializing, rebuild := Some(Rebuild(scanned, s.file)))
    case MarkSaved(now) => s.(throttle := Started(s.throttle, now), pc := Top)
    case JoinForExit => s.(pc := Exiting)
    case Leave => s.(pc := Done)
  }

  ghost predicate IsRun(s: State, run: seq<Label>, s': State)
    decreases |run|
  {
    if run == [] then s' == s
    else Enabled(s, run[0]) && IsRun(Apply(s, run[0]), run[1..], s')
  }

  /** The loop starts after the first StartIndexing and its MarkSaved: the file holds the store, or
      that was a rebuild and its save did not replace the file. */
  predicate Initial(s: State) {
    && s.pc.Top? && s.pending == 0 && !s.throttle.dirty
    && if s.lost then s.rebuild == Some(Rebuild(s.store, s.file)) else Saved(s)
  }

  predicate Saved(s: State) {
    s.file.Some? && s.file.value.pool == s.store
  }

  /** A change that is not in the file yet will be: it is marked, or its notification is on its way. */
  predicate Announced(s: State) {
    s.throttle.dirty || s.pending > 0
  }

  /** What is known of unsaved changes at each stage of the loop. */
  predicate NothingLost(s: State) {
    && (!Monitored(s.pc) ==> s.pending == 0)
    && match s.pc
       case Top => Saved(s) || Announced(s) || s.lost
       case Clearing(_) => true
       case Serializing => true
       case Writing(image) => image.pool == s.store || Announced(s)
       case Remarking => true
       case Recording => Saved(s) || Announced(s)
       case Rebuilding => true
       case RebuildSerializing => true
       case RebuildWriting(image) => image.pool == s.store
       case RebuildSaved => Saved(s) || s.lost
       case Exiting => Saved(s) || s.throttle.dirty || s.lost
       case FinalWriting(image) => image.pool == s.store
       case Done => true
  }

  lemma StepKeeps(s: State, a: Label)
    requires NothingLost(s) && Enabled(s, a)
    ensures NothingLost(Apply(s, a))
  {
    hide IsDue, Times64, Plus64, Max;
  }

  lemma {:induction false} RunKeeps(s: State, run: seq<Label>, s': State)
    requires NothingLost(s) && IsRun(s, run, s')
    ensures NothingLost(s')
    decreases |run|
  {
    hide NothingLost, Apply, Enabled;
    if run != [] {
      StepKeeps(s, run[0]);
      RunKeeps(Apply(s, run[0]), run[1..], s');
    }
  }

  /** Main theorem: whenever the loop is between saves, a store that differs from the file has its
      dirty flag set or a notification on its way, unless the last rebuild could not be saved. */
  lemma NoLostChange(start: State, run: seq<Label>, s: State)
    requires Initial(start) && IsRun(start, run, s)
    ensures s.pc.Top? && !s.lost && !Saved(s) ==> s.throttle.dirty || s.pending > 0
    ensures s.pc.Writing? && s.pc.image.pool != s.store ==> s.throttle.dirty || s.pending > 0
  {
    RunKeeps(start, run, s);
  }

  /** A run without its last step. */
  lemma {:induction false} LastStep(s: State, run: seq<Label>, s': State) returns (before: State)
    requires IsRun(s, run, s') && run != []
    ensures IsRun(s, run[..|run| - 1], before)
    ensures Enabled(before, run[|run| - 1]) && Apply(before, run[|run| - 1]) == s'
    decreases |run|
  {
    hide Apply, Enabled;
    if |run| == 1 {
      assert run[1..] == [];
      before := s;
    } else {
      before := LastStep(Apply(s, run[0]), run[1..], s');
      assert run[1..][..|run| - 2] == run[..|run| - 1][1..];
    }
  }

  /** A save that leaves the file alone. */
  predicate FailsToReplace(a: Label) {
    a.Write? && !a.replaced
  }

  /** The clean exit: unless the last rebuild or the final save did not reach the file, it holds exactly
      the store. */
  lemma CleanExit(start: State, run: seq<Label>, s: State)
    requires Initial(start) && IsRun(start, run, s) && s.pc.Done?
    requires run != [] && !FailsToReplace(run[|run| - 1]) && !s.lost
    ensures Saved(s)
  {
    var before := LastStep(start, run, s);
    RunKeeps(start, run[..|run| - 1], before);
    DoneOnlyByLeaving(start, run[..|run| - 1], before, run[|run| - 1]);
  }

  lemma DoneOnlyByLeaving(start: State, run: seq<Label>, before: State, a: Label)
    requires Initial(start) && IsRun(start, run, before) && Enabled(before, a) && Apply(before, a).pc.Done?
    requires NothingLost(before)
    ensures before.pending == 0 && (a.Leave? || a.Write?)
  {
  }

  /** After a clean exit, loading the file gives back every live entry of the store, in order, with
      its name, path, metadata and token spans, and nothing else. */
  lemma ExitedFileDecodes(start: State, run: seq<Label>, s: State)
    requires Initial(start) && IsRun(start, run, s) && s.pc.Done?
    requires run != [] && !FailsToReplace(run[|run| - 1]) && !s.lost
    requires ValidPool(s.store) && FaithfulPool(s.store) && FitsFormat(s.store)
    ensures s.file.Some?
    ensures var image := LiveImage(s.store, s.file.value.build, s.file.value.stop);
      && s.file.value.pool == s.store && IsLoadResult(Render(image), Some(image))
      && (|LoadedPool(image).spans| < TWO_32 ==> HoldsLiveEntries(LoadedPool(image), s.store))
  {
    hide FaithfulPool, FitsFormat, Render, WellFormed;
    CleanExit(start, run, s);
    RoundTrip(s.store, s.file.value.build, s.file.value.stop);
  }

  // ----- The way a change can be lost -----

  predicate IsRebuilt(s: State) {
    s.rebuild.Some? && s.store == s.rebuild.value.store
  }

  /** While the last rebuild is lost, the file is what it was before it; and a store without announced
      changes is the rebuilt one. */
  predicate LostIsUnsaved(s: State) {
    && (s.lost ==> s.rebuild.Some? && s.file == s.rebuild.value.file)
    && match s.pc
       case Top => s.lost ==> Announced(s) || IsRebuilt(s)
       case Recording => s.lost ==> Announced(s)
       case RebuildSerializing => IsRebuilt(s) && s.file == s.rebuild.value.file
       case RebuildWriting(image) => IsRebuilt(s) && s.file == s.rebuild.value.file
       case RebuildSaved => s.lost ==> IsRebuilt(s)
       case Exiting => s.pending == 0 && (s.lost ==> Announced(s) || IsRebuilt(s))
       case FinalWriting(_) => s.pending == 0
       case _ => true
  }

  lemma StepLost(s: State, a: Label)
    requires LostIsUnsaved(s) && Enabled(s, a)
    ensures LostIsUnsaved(Apply(s, a))
  {
    hide IsDue, Times64, Plus64, Max;
  }

  lemma {:induction false} RunLost(s: State, run: seq<Label>, s': State)
    requires LostIsUnsaved(s) && IsRun(s, run, s')
    ensures LostIsUnsaved(s')
    decreases |run|
  {
    hide LostIsUnsaved, Apply, Enabled;
    if run != [] {
      StepLost(s, run[0]);
      RunLost(Apply(s, run[0]), run[1..], s');
    }
  }

  /** A lost rebuild is lost: for as long as `lost` holds, the file is exactly what it was when the
      last rebuild scanned, so neither the rebuilt store nor anything after it has been written. */
  lemma LostNeverWritten(start: State, run: seq<Label>, s: State)
    requires Initial(start) && IsRun(start, run, s) && s.lost
    ensures s.rebuild.Some? && s.file == s.rebuild.value.file
  {
    RunLost(start, run, s);
  }

  /** The clean exit, exactly: the file holds the store unless the last rebuild is lost; and if it is,
      the store is that rebuild's, the file is the one from before it, and holds the store only if it
      already did. */
  lemma CleanExitExactly(start: State, run: seq<Label>, s: State)
    requires Initial(start) && IsRun(start, run, s) && s.pc.Done?
    requires run != [] && !FailsToReplace(run[|run| - 1])
    ensures s.lost ==> IsRebuilt(s) && s.file == s.rebuild.value.file
    ensures Saved(s) <==> !s.lost || (s.rebuild.value.file.Some? && s.rebuild.value.file.value.pool == s.store)
  {
    var before := LastStep(start, run, s);
    RunLost(start, run[..|run| - 1], before);
    RunLost(start, run, s);
    RunKeeps(start, run[..|run| - 1], before);
    DoneOnlyByLeaving(start, run[..|run| - 1], before, run[|run| - 1]);
    LeavingLost(before, run[|run| - 1]);
    if !s.lost {
      CleanExit(start, run, s);
    }
  }

  lemma LeavingLost(before: State, a: Label)
    requires LostIsUnsaved(before) && Enabled(before, a) && Apply(before, a).pc.Done? && !FailsToReplace(a)
    requires a.Leave? || a.Write?
    ensures Apply(before, a).lost ==> IsRebuilt(Apply(before, a))
  {
  }

  /** An instance, from every state between saves: MarkSaved after a rebuild clears the dirty flag
      whether or not the rebuild's save succeeded, so after one that left the file alone the helper can
      exit with the file never having seen the rebuilt store. */
  lemma FailedRebuildForgotten(s: State, scanned: Pool, now: u64) returns (run: seq<Label>, s': State)
    requires s.pc.Top? && s.pending == 0
    ensures IsRun(s, run, s') && s'.pc.Done? && s'.store == scanned && s'.file == s.file
    ensures !s'.throttle.dirty && s'.lost
  {
    var s1 := Apply(s, JoinForRebuild);
    var s2 := Apply(s1, Rescan(scanned));
    var s3 := Apply(s2, Serialize(0, 0));
    var s4 := Apply(s3, Write(false, false));
    var s5 := Apply(s4, MarkSaved(now));
    var s6 := Apply(s5, JoinForExit);
    s' := Apply(s6, Leave);
    var r6 := RunOne(s6, Leave, [], s');
    var r5 := RunOne(s5, JoinForExit, r6, s');
    var r4 := RunOne(s4, MarkSaved(now), r5, s');
    var r3 := RunOne(s3, Write(false, false), r4, s');
    var r2 := RunOne(s2, Serialize(0, 0), r3, s');
    var r1 := RunOne(s1, Rescan(scanned), r2, s');
    run := RunOne(s, JoinForRebuild, r1, s');
  }

  lemma RunOne(s: State, a: Label, rest: seq<Label>, s': State) returns (run: seq<Label>)
    requires Enabled(s, a) && IsRun(Apply(s, a), rest, s')
    ensures run == [a] + rest && IsRun(s, run, s')
  {
    run := [a] + rest;
    assert run[1..] == rest;
  }

  // ----- The loop's save, on the throttle object -----

  /** Lines 337-343 of main_helper.cpp: `saved` is what PersistLiveChanges would return. */
  method SaveIfDue(throttle: SaveThrottle, nowNs: u64, saveStartNs: u64, saveEndNs: u64, saved: bool)
    returns (attempted: bool)
    modifies throttle
    ensures attempted == IsDue(old(throttle.State()), nowNs)
    ensures throttle.State() == After(old(throttle.State()), Poll(nowNs, Minus64(saveEndNs, saveStartNs), saved))
  {
    attempted := throttle.ShouldSave(nowNs);
    if attempted {
      if !saved {
        throttle.MarkDirty();
      }
      throttle.RecordSaveDuration(Minus64(saveEndNs, saveStartNs));
    }
  }

  /** What a save that replaces the file leaves in it: the store as it was serialized, with the
      two timestamps it was given. */
  lemma SaveWrites(s: State, build: u64, stop: u64, ok: bool)
    requires Enabled(s, Serialize(build, stop))
    ensures var s1 := Apply(s, Serialize(build, stop));
      && Enabled(s1, Write(true, ok))
      && Apply(s1, Write(true, ok)).file.Some?
      && var image := Apply(s1, Write(true, ok)).file.value;
         image.pool == s.store && image.build == build && image.stop == stop
  {
  }

  /** The stages of a save, one after another with no change in between, do to the throttle what the
      poll event of SaveThrottles does. */
  lemma SaveStagesArePoll(s: State, now: u64, build: u64, stop: u64, replaced: bool, ok: bool, duration: u64)
    requires s.pc.Top? && IsDue(s.throttle, now) && (ok ==> replaced)
    ensures var s1 := Apply(s, Check(now));
      var s2 := Apply(s1, Clear);
      var s3 := Apply(s2, Serialize(build, stop));
      var s4 := Apply(s3, Write(replaced, ok));
      var s5 := if ok then s4 else Apply(s4, Remark);
      var s6 := Apply(s5, Measure(duration));
      s6.throttle == After(s.throttle, Poll(now, duration, ok)) && s6.pc.Top?
  {
  }
}
