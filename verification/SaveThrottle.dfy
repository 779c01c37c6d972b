/** The throttle of src/core/indexer/SaveThrottle.cpp: when the helper writes live changes to disk,
    and how often that can be. Times are unsigned 64-bit nanoseconds. */
module SaveThrottles {
  import opened Common

  datatype Throttle = Throttle(dirty: bool, min: u64, interval: u64, last: u64)

  /** Unsigned 64-bit subtraction, addition and multiplication. */
  function Minus64(a: u64, b: u64): u64 {
    if b <= a then a - b else a - b + TWO_64
  }

  function Plus64(a: u64, b: u64): u64 {
    if a + b < TWO_64 then a + b else a + b - TWO_64
  }

  function Times64(a: u64, b: u64): u64 {
    (a * b) % TWO_64
  }

  const SAVE_COST_FACTOR := 5

  function Max(a: u64, b: u64): u64 {
    if a < b then b else a
  }

  predicate IsDue(t: Throttle, now: u64) {
    t.dirty && Minus64(now, t.last) >= t.interval
  }

  function Started(t: Throttle, now: u64): Throttle {
    t.(dirty := false, last := now)
  }

  function Recorded(t: Throttle, duration: u64): Throttle {
    t.(interval := Max(t.min, Times64(duration, SAVE_COST_FACTOR)), last := Plus64(t.last, duration))
  }

  class SaveThrottle {
    var dirty: bool
    const minIntervalNs: u64
    var intervalNs: u64
    var lastSaveNs: u64

    ghost function State(): Throttle
      reads this
    {
      Throttle(dirty, minIntervalNs, intervalNs, lastSaveNs)
    }

    constructor (minInterval: u64, nowNs: u64)
      ensures State() == Throttle(false, minInterval, minInterval, nowNs)
    {
      dirty, minIntervalNs, intervalNs, lastSaveNs := false, minInterval, minInterval, nowNs;
    }

    method MarkDirty()
      modifies this`dirty
      ensures State() == old(State()).(dirty := true)
    {
      dirty := true;
    }

    method ShouldSave(nowNs: u64) returns (due: bool)
      modifies this`dirty, this`lastSaveNs
      ensures due == IsDue(old(State()), nowNs)
      ensures lastSaveNs == (if due then nowNs else old(lastSaveNs)) && dirty == (old(dirty) && !due)
      ensures State() == if due then Started(old(State()), nowNs) else old(State())
    {
      if !dirty || Minus64(nowNs, lastSaveNs) < intervalNs {
        return false;
      }
      dirty := false;
      lastSaveNs := nowNs;
      return true;
    }

    method HasPendingChanges() returns (pending: bool)
      ensures pending == State().dirty
    {
      return dirty;
    }

    method RecordSaveDuration(durationNs: u64)
      modifies this`intervalNs, this`lastSaveNs
      ensures State() == Recorded(old(State()), durationNs)
      ensures dirty == old(dirty) && lastSaveNs as int == (old(lastSaveNs) + durationNs) % TWO_64
      ensures 5 * durationNs < TWO_64 ==>
        && minIntervalNs <= intervalNs && 5 * durationNs <= intervalNs
        && (intervalNs == minIntervalNs || intervalNs == 5 * durationNs)
    {
      intervalNs := Max(minIntervalNs, Times64(durationNs, SAVE_COST_FACTOR));
      lastSaveNs := Plus64(lastSaveNs, durationNs);
    }

    method MarkSaved(nowNs: u64)
      modifies this`dirty, this`lastSaveNs
      ensures State() == Started(old(State()), nowNs)
      ensures !dirty && lastSaveNs == nowNs && intervalNs == old(intervalNs)
    {
      dirty := false;
      lastSaveNs := nowNs;
    }
  }

  /** A poll saves exactly when a change is pending and the interval has passed; a clock that went
      backwards by anything up to 2^64 - interval counts as passed. */
  lemma DueExactly(t: Throttle, now: u64)
    ensures t.last <= now ==> (IsDue(t, now) <==> t.dirty && now >= t.last + t.interval)
    ensures now < t.last ==> (IsDue(t, now) <==> t.dirty && t.last - now <= TWO_64 - t.interval)
  {
  }

  // ----- Runs of the helper's poll loop -----

  /** A change; a poll that, if due, starts a save taking `duration`; a rebuild finished at `now`. */
  datatype Event =
    | Change
    | Poll(now: u64, duration: u64, ok: bool)
    | Rebuilt(now: u64)

  predicate Saves(t: Throttle, e: Event) {
    e.Poll? && IsDue(t, e.now)
  }

  function After(t: Throttle, e: Event): Throttle {
    match e
    case Change => t.(dirty := true)
    case Rebuilt(now) => Started(t, now)
    case Poll(now, duration, ok) =>
      if !IsDue(t, now) then t
      else Recorded(Started(t, now).(dirty := !ok), duration)
  }

  function AfterAll(t: Throttle, es: seq<Event>): Throttle
    decreases |es|
  {
    if es == [] then t else AfterAll(After(t, es[0]), es[1..])
  }

  /** A nondecreasing clock without 64-bit overflow: a save is over before the next event. */
  predicate Timely(clock: nat, t: Throttle, es: seq<Event>)
    decreases |es|
  {
    if es == [] then true
    else
      var e := es[0];
      && (e.Poll? || e.Rebuilt? ==> clock <= e.now)
      && (Saves(t, e) ==> e.now + e.duration < TWO_64 && SAVE_COST_FACTOR * e.duration < TWO_64)
      && Timely(Later(clock, t, e), After(t, e), es[1..])
  }

  function Later(clock: nat, t: Throttle, e: Event): nat {
    match e
    case Change => clock
    case Rebuilt(now) => now
    case Poll(now, duration, _) => if IsDue(t, now) then now + duration else now
  }

  /** When the saves of a run start. */
  function Starts(t: Throttle, es: seq<Event>): seq<nat>
    decreases |es|
  {
    if es == [] then []
    else (if Saves(t, es[0]) then [es[0].now] else []) + Starts(After(t, es[0]), es[1..])
  }

  lemma AfterSave(t: Throttle, now: u64, duration: u64, ok: bool)
    requires IsDue(t, now) && now + duration < TWO_64 && SAVE_COST_FACTOR * duration < TWO_64
    ensures After(t, Poll(now, duration, ok))
      == Throttle(!ok, t.min, Max(t.min, SAVE_COST_FACTOR * duration), now + duration)
  {
    assert (duration * SAVE_COST_FACTOR) % TWO_64 == duration * SAVE_COST_FACTOR;
  }

  /** No save starts before the interval after the last one (or after a rebuild) is over. */
  lemma {:induction false} StartsAfterGap(clock: nat, t: Throttle, es: seq<Event>)
    requires Timely(clock, t, es) && t.last <= clock
    ensures forall i :: 0 <= i < |Starts(t, es)| ==> Starts(t, es)[i] >= t.last + t.interval
    ensures t.min <= t.interval ==> forall i :: 0 < i < |Starts(t, es)| ==>
      Starts(t, es)[i] >= Starts(t, es)[i - 1] + t.min
    decreases |es|
  {
    if es != [] {
      var e := es[0];
      var next := After(t, e);
      DueExactly(t, if e.Change? then 0 else e.now);
      if Saves(t, e) {
        AfterSave(t, e.now, e.duration, e.ok);
      }
      hide Recorded, IsDue, Times64;
      StartsAfterGap(Later(clock, t, e), next, es[1..]);
    }
  }

  /** The gap: a save that starts at time t and takes d is followed by no other before
      t + d + max(min, 5d), whatever changes, polls and rebuilds come in between. */
  lemma GapAfterSave(clock: nat, t: Throttle, e: Event, es: seq<Event>)
    requires Timely(clock, t, [e] + es) && t.last <= clock && Saves(t, e)
    ensures forall i :: 0 <= i < |Starts(After(t, e), es)| ==>
      && Starts(After(t, e), es)[i] >= e.now + e.duration + t.min
      && Starts(After(t, e), es)[i] >= e.now + e.duration + 5 * e.duration
  {
    assert ([e] + es)[1..] == es;
    AfterSave(t, e.now, e.duration, e.ok);
    StartsAfterGap(e.now + e.duration, After(t, e), es);
  }

  /** A run without saves and rebuilds. */
  predicate NoSave(t: Throttle, es: seq<Event>)
    decreases |es|
  {
    es == [] || (!Saves(t, es[0]) && !es[0].Rebuilt? && NoSave(After(t, es[0]), es[1..]))
  }

  lemma {:induction false} WaitingRun(t: Throttle, es: seq<Event>)
    requires NoSave(t, es)
    ensures AfterAll(t, es) == t.(dirty := AfterAll(t, es).dirty)
    ensures AfterAll(t, es).dirty <==> t.dirty || Change in es
    decreases |es|
  {
    if es != [] {
      WaitingRun(After(t, es[0]), es[1..]);
      assert es == [es[0]] + es[1..];
    }
  }

  /** The throttle never holds a change back for longer: after a save at t taking d, the first poll
      at or after t + d + max(min, 5d) saves if and only if a change is pending, that is, if the save
      failed or a change has come since. */
  lemma FirstPollAfterGap(clock: nat, t: Throttle, e: Event, es: seq<Event>, now: u64)
    requires Timely(clock, t, [e]) && Saves(t, e)
    requires NoSave(After(t, e), es)
    requires now >= e.now + e.duration + t.min && now >= e.now + e.duration + 5 * e.duration
    ensures IsDue(AfterAll(After(t, e), es), now) <==> !e.ok || Change in es
  {
    AfterSave(t, e.now, e.duration, e.ok);
    WaitingRun(After(t, e), es);
    DueExactly(AfterAll(After(t, e), es), now);
  }

  lemma {:induction false} StartsSpread(starts: seq<nat>, min: nat, i: nat, j: nat)
    requires i <= j < |starts|
    requires forall k :: 0 < k < |starts| ==> starts[k] >= starts[k - 1] + min
    ensures starts[j] >= starts[i] + (j - i) * min
    decreases j
  {
    if i < j {
      StartsSpread(starts, min, i, j - 1);
      assert (j - i) * min == (j - 1 - i) * min + min;
    }
  }

  /** The rate bound: the starts i, ..., j of any run that lie within a window of length T number at
      most 1 + T / min. */
  lemma RateBound(clock: nat, t: Throttle, es: seq<Event>, from: nat, length: nat, i: nat, j: nat)
    requires Timely(clock, t, es) && t.last <= clock && 0 < t.min <= t.interval
    requires i <= j < |Starts(t, es)|
    requires from <= Starts(t, es)[i] && Starts(t, es)[j] <= from + length
    ensures j - i + 1 <= 1 + length / t.min
  {
    StartsAfterGap(clock, t, es);
    StartsSpread(Starts(t, es), t.min, i, j);
    AtMost(j - i, t.min, length);
  }

  lemma {:induction false} TimesMonotone(a: nat, b: nat, m: nat)
    ensures a <= b ==> a * m <= b * m
    decreases b
  {
    if a < b {
      TimesMonotone(a, b - 1, m);
      assert b * m == (b - 1) * m + m;
    }
  }

  lemma AtMost(count: nat, min: nat, length: nat)
    requires min > 0 && count * min <= length
    ensures count <= length / min
  {
    var q := length / min;
    assert length == q * min + length % min;
    assert (q + 1) * min == q * min + min;
    TimesMonotone(q + 1, count, min);
  }
}
