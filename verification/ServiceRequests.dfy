/** Orderly runs: what the coverage and removal theorems ask of the requesters and of the index file,
    and how the queues keep the requests in order. */
module ServiceRequests {
  import opened Common
  import opened PathUtils
  import opened IndexServices
  import opened ServiceModel
  import opened ServiceFrames
  import opened ServiceQueue

  // ----- Orderly requests -----

  /** The rebuilds and Settings changes of a list of commands. */
  function Busies(s: seq<Command>): seq<Command> {
    if s == [] then []
    else
      var rest := Busies(s[..|s| - 1]);
      if IsBusy(s[|s| - 1]) then rest + [s[|s| - 1]] else rest
  }

  function RequestRoots(c: Option<Command>): seq<Path> {
    if c.None? then [] else RootsOf(c.value)
  }

  /** A Settings change that only drops roots and drops "/": the one RemovePaths cannot carry out. */
  predicate DropsSlash(c: Command) {
    c.Change? && DiffOf(c).added == [] && "/" in DiffOf(c).removed
  }

  /** A rebuild, or a Settings change whose old roots are those of the request before it. */
  ghost predicate Follows(before: Option<Command>, c: Command) {
    && IsBusy(c) && Antichain(RootsOf(c))
    && (c.Change? ==> c.oldRoots == RequestRoots(before) && !DropsSlash(c))
  }

  /** No path twice, and only paths under these roots. */
  ghost predicate RowsFit(rows: seq<Path>, roots: set<Path>) {
    NoDuplicates(rows) && forall p :: p in rows ==> CoveredBy(p, roots)
  }

  ghost predicate FileFits(s: State, roots: seq<Path>) {
    s.file.Some? && RowsFit(s.file.value, Elements(roots))
  }

  /** Each request follows from the one registered before it; requests are enqueued in the order in
      which they were registered, however many are still to be enqueued; and what is loaded from the
      index file fits the roots of the last dequeued request. */
  ghost predicate Orderly(s: State, a: Label) {
    match a
    case Request(c) => Follows(s.hist.latest, c)
    case Enqueue(i) => i < |s.pending| && (IsBusy(s.pending[i]) ==> Busies(s.pending[..i]) == [])
    case Decide(recent) => recent ==> FileFits(s, RequestRoots(s.hist.current))
    case LoadFile(ok) => ok ==> FileFits(s, RequestRoots(s.hist.current))
    case _ => true
  }

  ghost predicate IsOrderlyRun(s: State, run: seq<Label>, s': State)
    decreases |run|
  {
    if run == [] then s' == s
    else Enabled(s, run[0]) && Orderly(s, run[0]) && IsOrderlyRun(Apply(s, run[0]), run[1..], s')
  }

  // ----- The queue holds the requests in order -----

  function Prior(before: Option<Command>, cs: seq<Command>, i: nat): Option<Command>
    requires i <= |cs|
  {
    if i == 0 then before else Some(cs[i - 1])
  }

  /** Each request follows from the one before it, from the last dequeued to the last accepted. */
  ghost predicate Chain(before: Option<Command>, cs: seq<Command>, last: Option<Command>) {
    && (forall i {:trigger cs[i]} :: 0 <= i < |cs| ==> Follows(Prior(before, cs, i), cs[i]))
    && last == Prior(before, cs, |cs|)
  }

  ghost predicate Queued(s: State) {
    !s.locked.shuttingDown ==>
      Chain(s.hist.current, Busies(s.locked.commands) + Busies(s.pending), s.hist.latest)
  }

  lemma BusiesOne(s: seq<Command>, c: Command)
    ensures Busies(s + [c]) == if IsBusy(c) then Busies(s) + [c] else Busies(s)
  {
    assert (s + [c])[..|s|] == s;
  }

  lemma {:induction false} BusiesAppend(s: seq<Command>, t: seq<Command>)
    ensures Busies(s + t) == Busies(s) + Busies(t)
  {
    if t == [] {
      assert s + t == s;
    } else {
      BusiesAppend(s, t[..|t| - 1]);
      assert s + t == (s + t[..|t| - 1]) + [t[|t| - 1]];
      BusiesOne(s + t[..|t| - 1], t[|t| - 1]);
    }
  }

  /** Moving one command from the middle of s to the end of t keeps the busy commands in order when
      it is not busy, or the first busy one of s. */
  lemma BusiesMove(t: seq<Command>, s: seq<Command>, i: nat)
    requires i < |s| && (IsBusy(s[i]) ==> Busies(s[..i]) == [])
    ensures Busies(t + [s[i]]) + Busies(s[..i] + s[i + 1..]) == Busies(t) + Busies(s)
  {
    hide Busies;
    var before, after := s[..i], s[i + 1..];
    CutOut(s, i);
    BusiesAppend(before + [s[i]], after);
    BusiesOne(before, s[i]);
    BusiesAppend(before, after);
    BusiesOne(t, s[i]);
    Regroup(Busies(t), s[i], Busies(after));
  }

  lemma CutOut(s: seq<Command>, i: nat)
    requires i < |s|
    ensures s == (s[..i] + [s[i]]) + s[i + 1..]
  {
  }

  lemma Regroup(s: seq<Command>, c: Command, t: seq<Command>)
    ensures (s + [c]) + ([] + t) == s + (([] + [c]) + t)
  {
  }

  lemma BusiesFirst(s: seq<Command>)
    requires s != []
    ensures Busies(s) == if IsBusy(s[0]) then [s[0]] + Busies(s[1..]) else Busies(s[1..])
  {
    assert s == [s[0]] + s[1..] && [s[0]] == [] + [s[0]];
    BusiesOne([], s[0]);
    BusiesAppend([s[0]], s[1..]);
  }

  lemma ChainFirst(before: Option<Command>, cs: seq<Command>, last: Option<Command>)
    requires Chain(before, cs, last) && cs != []
    ensures Follows(before, cs[0]) && Chain(Some(cs[0]), cs[1..], last)
  {
    hide Follows;
    forall i | 0 <= i < |cs[1..]| ensures Follows(Prior(Some(cs[0]), cs[1..], i), cs[1..][i]) {
      assert Follows(Prior(before, cs, i + 1), cs[i + 1]);
    }
  }

  lemma ChainMore(before: Option<Command>, cs: seq<Command>, last: Option<Command>, c: Command)
    requires Chain(before, cs, last) && Follows(last, c)
    ensures Chain(before, cs + [c], Some(c))
  {
    hide Follows;
    forall i | 0 <= i < |cs + [c]| ensures Follows(Prior(before, cs + [c], i), (cs + [c])[i]) {
      if i < |cs| {
        assert Follows(Prior(before, cs, i), cs[i]);
      }
    }
  }

  lemma NotTakenAfterShutdown(s: State, a: Label)
    requires Enabled(s, a)
    ensures a.Take? ==> !s.locked.shuttingDown && s.locked.commands != []
    ensures a.Enqueue? ==> a.i < |s.pending|
  {
  }

  lemma StepQueued(s: State, a: Label)
    requires Queued(s) && Enabled(s, a) && Orderly(s, a)
    ensures Queued(Apply(s, a))
  {
    hide Apply, Enabled, Busies, Follows, Chain;
    StepFrame(s, a);
    HistoryStep(s, a);
    RequestsAreBusy(s, a);
    NotTakenAfterShutdown(s, a);
    var cs := Busies(s.locked.commands) + Busies(s.pending);
    match a
    case Request(c) =>
      BusiesOne(s.pending, c);
      if !s.locked.shuttingDown {
        ChainMore(s.hist.current, cs, s.hist.latest, c);
        assert cs + [c] == Busies(s.locked.commands) + (Busies(s.pending) + [c]);
      }
    case StopLocal => BusiesOne(s.pending, Other);
    case Mark => BusiesOne(s.pending, Other);
    case RequestReload => BusiesOne(s.pending, Reload);
    case Enqueue(i) => BusiesMove(s.locked.commands, s.pending, i);
    case Take =>
      BusiesFirst(s.locked.commands);
      if IsBusy(s.locked.commands[0]) {
        ChainFirst(s.hist.current, cs, s.hist.latest);
        assert cs[1..] == Busies(s.locked.commands[1..]) + Busies(s.pending);
      }
    case _ =>
  }
}
