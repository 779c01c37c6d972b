/** The search-as-you-type pipeline of src/ui/SearchCoordinator.cpp: one GUI thread, one worker thread
    per search ever started, and the queue of results posted back to the GUI thread. */
module SearchCoordinators {
  import opened Common
  import opened IndexPools
  import opened SearchEngine

  const MIN_QUERY := 2

  /** The coordinator's fields: the current search's token and flag, and searching_. Tokens are
      numbered in the order the searches start; `cancelled` are the tokens whose flag is set. */
  datatype Gui = Gui(current: Option<nat>, cancelled: set<nat>, searching: bool, started: nat)

  function CancelRunning(g: Gui): Gui {
    g.(cancelled := if g.current.Some? then g.cancelled + {g.current.value} else g.cancelled, searching := false)
  }

  /** StartSearch: a query under two characters, as the search box counts them, only cancels. */
  function StartWith(g: Gui, length: nat): Gui {
    var idle := CancelRunning(g);
    if length < MIN_QUERY then idle
    else idle.(current := Some(g.started), searching := true, started := g.started + 1)
  }

  /** The check repeated on the GUI thread when posted results arrive. */
  function Arrived(g: Gui, token: nat): Gui {
    if token in g.cancelled then g else g.(searching := false)
  }

  class SearchCoordinator {
    var cancelToken: Option<nat>
    var cancelled: set<nat>
    var searching: bool
    var started: nat

    ghost function State(): Gui
      reads this
    {
      Gui(cancelToken, cancelled, searching, started)
    }

    constructor ()
      ensures State() == Gui(None, {}, false, 0)
    {
      cancelToken, cancelled, searching, started := None, {}, false, 0;
    }

    method CancelRunningSearch()
      modifies this
      ensures State() == CancelRunning(old(State()))
      ensures !searching && cancelToken == old(cancelToken) && started == old(started)
      ensures cancelled == old(cancelled) + if cancelToken.Some? then {cancelToken.value} else {}
    {
      if cancelToken.Some? {
        cancelled := cancelled + {cancelToken.value};
      }
      searching := false;
    }

    /** The token of the worker thread to start, and whether QueryTooShort is emitted. Whatever the
        query, the search before it is cancelled. */
    method StartSearch(query: string) returns (token: Option<nat>, tooShort: bool)
      modifies this
      ensures State() == StartWith(old(State()), |query|)
      ensures cancelled == old(cancelled) + if old(cancelToken).Some? then {old(cancelToken).value} else {}
      ensures searching <==> |query| >= 2
      ensures |query| < 2 ==> token == None && cancelToken == old(cancelToken) && started == old(started)
      ensures |query| >= 2 ==> token == cancelToken == Some(old(started)) && started == old(started) + 1
      ensures tooShort <==> |query| == 1
    {
      CancelRunningSearch();
      if |query| < MIN_QUERY {
        return None, query != "";
      }
      token := Some(started);
      cancelToken := token;
      started := started + 1;
      searching := true;
      tooShort := false;
    }

    method ResultsArrived(token: nat) returns (emit: bool)
      modifies this`searching
      ensures State() == Arrived(old(State()), token) && emit == (token !in cancelled)
      ensures searching == (old(searching) && !emit)
    {
      emit := token !in cancelled;
      if emit {
        searching := false;
      }
    }
  }

  // ----- The two-thread step system -----

  /** `length` counts the characters of the search box; `text` is what the engine is given. */
  datatype Query = Query(length: nat, text: string, options: SearchOptions)

  /** Results with the pool they were computed from; `complete` unless the engine stopped early or
      the worker saw its token cancelled. */
  datatype Results = Results(query: Query, pool: Pool, hits: seq<SearchResult>, complete: bool)

  /** A worker thread: about to search, about to check its token before building the entries, about to
      check it before posting, finished. */
  datatype Worker =
    | Searching(query: Query)
    | Building(results: Results)
    | Posting(results: Results)
    | Finished(query: Query)

  datatype Post = Post(token: nat, results: Results)

  /** `workers[i]` is the thread of the i-th search started; `log` the ResultsReady emissions. */
  datatype State = State(gui: Gui, pool: Pool, workers: seq<Worker>, events: seq<Post>, log: seq<Post>)

  datatype Label =
    | Start(query: Query)
    | CancelCurrent
    | StoreChange(pool: Pool)
    | RunSearch(i: nat, hits: seq<SearchResult>, complete: bool)
    | Build(i: nat)
    | PostResults(i: nat)
    | Deliver

  /** What the engine returns for a query on a pool when it is not cancelled. */
  ghost predicate IsAnswer(r: Results) {
    && ValidPool(r.pool)
    && AreHits(r.hits, Capped(Matching(r.pool, r.query.text, r.query.options, |r.pool.meta|)), r.pool,
               r.query.text, r.query.options)
  }

  ghost predicate Enabled(s: State, a: Label) {
    match a
    case Start(_) => true
    case CancelCurrent => true
    case StoreChange(_) => true
    case RunSearch(i, hits, complete) =>
      && i < |s.workers| && s.workers[i].Searching?
      && (if complete then IsAnswer(Results(s.workers[i].query, s.pool, hits, true)) else i in s.gui.cancelled)
    case Build(i) => i < |s.workers| && s.workers[i].Building?
    case PostResults(i) => i < |s.workers| && s.workers[i].Posting?
    case Deliver => s.events != []
  }

  ghost function Apply(s: State, a: Label): State
    requires Enabled(s, a)
  {
    match a
    case Start(q) =>
      s.(gui := StartWith(s.gui, q.length),
         workers := if q.length < MIN_QUERY then s.workers else s.workers + [Searching(q)])
    case CancelCurrent => s.(gui := CancelRunning(s.gui))
    case StoreChange(pool) => s.(pool := pool)
    case RunSearch(i, hits, complete) =>
      s.(workers := s.workers[i := Building(Results(s.workers[i].query, s.pool, hits, complete))])
    case Build(i) =>
      var r := s.workers[i].results;
      s.(workers := s.workers[i := Posting(if i in s.gui.cancelled then r.(complete := false) else r)])
    case PostResults(i) =>
      s.(workers := s.workers[i := Finished(s.workers[i].results.query)],
         events := if i in s.gui.cancelled then s.events else s.events + [Post(i, s.workers[i].results)])
    case Deliver =>
      var e := s.events[0];
      s.(events := s.events[1..], gui := Arrived(s.gui, e.token),
         log := if e.token in s.gui.cancelled then s.log else s.log + [e])
  }

  ghost predicate IsRun(s: State, run: seq<Label>, s': State)
    decreases |run|
  {
    if run == [] then s' == s
    else Enabled(s, run[0]) && IsRun(Apply(s, run[0]), run[1..], s')
  }

  predicate Initial(s: State) {
    s.gui == Gui(None, {}, false, 0) && s.workers == [] && s.events == [] && s.log == []
  }

  // ----- What every step keeps -----

  /** All tokens but the latest are cancelled. */
  predicate TokensOk(s: State) {
    && s.gui.started == |s.workers|
    && s.gui.current == (if |s.workers| == 0 then None else Some(|s.workers| - 1))
    && (forall t :: t in s.gui.cancelled ==> t < |s.workers|)
    && (forall t: nat :: t < |s.workers| - 1 ==> t in s.gui.cancelled)
  }

  /** Results in an uncancelled worker's hands are the engine's full answer. */
  ghost predicate WorkerOk(s: State, i: nat)
    requires i < |s.workers|
  {
    var w := s.workers[i];
    && (w.Building? || w.Posting? ==> (w.results.complete ==> IsAnswer(w.results)))
    && (w.Building? || w.Posting? ==> w.results.complete || i in s.gui.cancelled)
  }

  ghost predicate WorkersOk(s: State) {
    forall i {:trigger s.workers[i]} :: 0 <= i < |s.workers| ==> WorkerOk(s, i)
  }

  ghost predicate PostOk(s: State, e: Post) {
    && e.token < |s.workers| && s.workers[e.token] == Finished(e.results.query)
    && (e.results.complete ==> IsAnswer(e.results)) && (e.results.complete || e.token in s.gui.cancelled)
  }

  /** Each search posts at most once, and in the order of the queue at most one post is live. */
  ghost predicate EventsOk(s: State) {
    && (forall k {:trigger s.events[k]} :: 0 <= k < |s.events| ==> PostOk(s, s.events[k]))
    && (forall j, k :: 0 <= j < k < |s.events| ==> s.events[j].token != s.events[k].token)
    && (forall k, m :: 0 <= k < |s.events| && 0 <= m < |s.log| ==> s.events[k].token != s.log[m].token)
  }

  ghost predicate EmittedOk(s: State, e: Post) {
    && e.token < |s.workers| && s.workers[e.token] == Finished(e.results.query)
    && e.results.complete && IsAnswer(e.results)
  }

  ghost predicate LogOk(s: State) {
    && (forall m {:trigger s.log[m]} :: 0 <= m < |s.log| ==> EmittedOk(s, s.log[m]))
    && (forall m, n :: 0 <= m < n < |s.log| ==> s.log[m].token < s.log[n].token)
  }

  predicate Delivered(s: State, token: nat) {
    exists m :: 0 <= m < |s.log| && s.log[m].token == token
  }

  predicate Posted(s: State, token: nat) {
    exists k :: 0 <= k < |s.events| && s.events[k].token == token
  }

  /** searching_ is true exactly while the current search is uncancelled and undelivered, and then its
      results are still to come. */
  predicate SearchingOk(s: State) {
    && (s.gui.searching <==> |s.workers| > 0 && |s.workers| - 1 !in s.gui.cancelled && !Delivered(s, |s.workers| - 1))
    && (s.gui.searching ==> !s.workers[|s.workers| - 1].Finished? || Posted(s, |s.workers| - 1))
  }

  ghost predicate Inv(s: State) {
    TokensOk(s) && WorkersOk(s) && EventsOk(s) && LogOk(s) && SearchingOk(s)
  }

  /** Threads, posts and emissions stay right when threads are added or make progress and tokens are
      cancelled. */
  lemma Carry(s: State, s': State)
    requires WorkersOk(s) && EventsOk(s) && LogOk(s)
    requires |s.workers| <= |s'.workers| && s.gui.cancelled <= s'.gui.cancelled
    requires s'.events == s.events && s'.log == s.log
    requires forall i {:trigger s.workers[i]} :: 0 <= i < |s.workers| ==>
      s'.workers[i] == s.workers[i] || (!s.workers[i].Finished? && WorkerOk(s', i))
    requires forall i {:trigger s'.workers[i]} :: |s.workers| <= i < |s'.workers| ==> s'.workers[i].Searching?
    ensures WorkersOk(s') && EventsOk(s') && LogOk(s')
  {
    hide IsAnswer;
    forall i | 0 <= i < |s'.workers| ensures WorkerOk(s', i) {
      if i < |s.workers| {
        assert WorkerOk(s, i) by { var w := s.workers[i]; }
      }
    }
    forall k | 0 <= k < |s'.events| ensures PostOk(s', s'.events[k]) {
      assert PostOk(s, s.events[k]);
      var w := s.workers[s.events[k].token];
    }
    forall m | 0 <= m < |s'.log| ensures EmittedOk(s', s'.log[m]) {
      assert EmittedOk(s, s.log[m]);
      var w := s.workers[s.log[m].token];
    }
  }

  lemma LatestNotDelivered(s: State)
    requires LogOk(s)
    ensures !Delivered(s, |s.workers|)
  {
    forall m | 0 <= m < |s.log| ensures s.log[m].token < |s.workers| {
      assert EmittedOk(s, s.log[m]);
    }
  }

  lemma StartKeeps(s: State, q: Query)
    requires Inv(s)
    ensures Inv(Apply(s, Start(q)))
  {
    hide WorkersOk, EventsOk, LogOk, WorkerOk;
    var s' := Apply(s, Start(q));
    Carry(s, s');
    LatestNotDelivered(s);
  }

  lemma CancelKeeps(s: State)
    requires Inv(s)
    ensures Inv(Apply(s, CancelCurrent))
  {
    hide WorkersOk, EventsOk, LogOk, WorkerOk;
    Carry(s, Apply(s, CancelCurrent));
  }

  lemma StoreKeeps(s: State, pool: Pool)
    requires Inv(s)
    ensures Inv(Apply(s, StoreChange(pool)))
  {
    hide WorkersOk, EventsOk, LogOk, WorkerOk;
    Carry(s, Apply(s, StoreChange(pool)));
  }

  lemma HasWorker(s: State, i: nat)
    requires WorkersOk(s) && i < |s.workers|
    ensures WorkerOk(s, i)
  {
    var w := s.workers[i];
  }

  lemma RunSearchKeeps(s: State, i: nat, hits: seq<SearchResult>, complete: bool)
    requires Inv(s) && Enabled(s, RunSearch(i, hits, complete))
    ensures Inv(Apply(s, RunSearch(i, hits, complete)))
  {
    hide WorkersOk, EventsOk, LogOk, IsAnswer;
    Carry(s, Apply(s, RunSearch(i, hits, complete)));
  }

  lemma BuildKeeps(s: State, i: nat)
    requires Inv(s) && Enabled(s, Build(i))
    ensures Inv(Apply(s, Build(i)))
  {
    hide WorkersOk, EventsOk, LogOk, IsAnswer;
    HasWorker(s, i);
    Carry(s, Apply(s, Build(i)));
  }

  /** Posting: the thread has finished, so nothing of it was posted or emitted before. */
  lemma PostKeeps(s: State, i: nat)
    requires Inv(s) && Enabled(s, PostResults(i))
    ensures Inv(Apply(s, PostResults(i)))
  {
    hide WorkersOk, EventsOk, LogOk, IsAnswer;
    HasWorker(s, i);
    var s' := Apply(s, PostResults(i));
    var quiet := s'.(events := s.events);
    Carry(s, quiet);
    if i !in s.gui.cancelled {
      PostedOnce(s, i);
      PostMore(quiet, s', s'.events[|s.events|]);
      LastPosted(s', i);
    }
    assert forall t :: Posted(s, t) ==> Posted(s', t) by {
      assert forall k :: 0 <= k < |s.events| ==> s'.events[k] == s.events[k];
    }
  }

  lemma LastPosted(s: State, i: nat)
    requires s.events != [] && s.events[|s.events| - 1].token == i
    ensures Posted(s, i)
  {
  }

  lemma PostedOnce(s: State, i: nat)
    requires EventsOk(s) && LogOk(s) && i < |s.workers| && !s.workers[i].Finished?
    ensures forall k :: 0 <= k < |s.events| ==> s.events[k].token != i
    ensures forall m :: 0 <= m < |s.log| ==> s.log[m].token != i
  {
    hide IsAnswer;
    forall k | 0 <= k < |s.events| ensures s.events[k].token != i {
      assert PostOk(s, s.events[k]);
    }
    forall m | 0 <= m < |s.log| ensures s.log[m].token != i {
      assert EmittedOk(s, s.log[m]);
    }
  }

  lemma PostMore(s: State, s': State, e: Post)
    requires EventsOk(s) && LogOk(s) && WorkersOk(s) && PostOk(s, e)
    requires s' == s.(events := s.events + [e])
    requires forall k :: 0 <= k < |s.events| ==> s.events[k].token != e.token
    requires forall m :: 0 <= m < |s.log| ==> s.log[m].token != e.token
    ensures EventsOk(s') && LogOk(s') && WorkersOk(s')
  {
    hide IsAnswer;
    forall k | 0 <= k < |s'.events| ensures PostOk(s', s'.events[k]) {
      if k < |s.events| {
        assert PostOk(s, s.events[k]);
      }
    }
    forall m | 0 <= m < |s'.log| ensures EmittedOk(s', s'.log[m]) {
      assert EmittedOk(s, s.log[m]);
    }
    forall i | 0 <= i < |s'.workers| ensures WorkerOk(s', i) {
      HasWorker(s, i);
    }
  }

  /** An arriving post that is emitted is the current search's, and complete. */
  lemma ArrivalIsLatest(s: State)
    requires Inv(s) && s.events != [] && s.events[0].token !in s.gui.cancelled
    ensures var e := s.events[0];
      && s.gui.current == Some(e.token) && e.token == |s.workers| - 1
      && PostOk(s, e) && e.results.complete && IsAnswer(e.results)
      && forall m :: 0 <= m < |s.log| ==> s.log[m].token < e.token
  {
    hide IsAnswer, SearchingOk, WorkersOk;
    assert PostOk(s, s.events[0]);
    forall m | 0 <= m < |s.log| ensures s.log[m].token < s.events[0].token {
      assert EmittedOk(s, s.log[m]);
    }
  }

  lemma DropFirstPost(s: State, s': State)
    requires EventsOk(s) && LogOk(s) && WorkersOk(s) && s.events != []
    requires s' == s.(events := s.events[1..], gui := s'.gui) && s'.gui.cancelled == s.gui.cancelled
    ensures EventsOk(s') && LogOk(s') && WorkersOk(s')
    ensures forall k :: 0 <= k < |s'.events| ==> s'.events[k].token != s.events[0].token
  {
    hide IsAnswer;
    forall k | 0 <= k < |s'.events| ensures PostOk(s', s'.events[k]) {
      assert PostOk(s, s.events[k + 1]);
    }
    forall m | 0 <= m < |s'.log| ensures EmittedOk(s', s'.log[m]) {
      assert EmittedOk(s, s.log[m]);
    }
    forall i | 0 <= i < |s'.workers| ensures WorkerOk(s', i) {
      HasWorker(s, i);
    }
  }

  lemma EmitMore(s: State, s': State, e: Post)
    requires EventsOk(s) && LogOk(s) && WorkersOk(s) && EmittedOk(s, e)
    requires s' == s.(log := s.log + [e])
    requires forall m :: 0 <= m < |s.log| ==> s.log[m].token < e.token
    requires forall k :: 0 <= k < |s.events| ==> s.events[k].token != e.token
    ensures EventsOk(s') && LogOk(s') && WorkersOk(s') && Delivered(s', e.token)
  {
    hide IsAnswer;
    assert s'.log[|s.log|].token == e.token;
    forall k | 0 <= k < |s'.events| ensures PostOk(s', s'.events[k]) {
      assert PostOk(s, s.events[k]);
    }
    forall m | 0 <= m < |s'.log| ensures EmittedOk(s', s'.log[m]) {
      if m < |s.log| {
        assert EmittedOk(s, s.log[m]);
      }
    }
    forall i | 0 <= i < |s'.workers| ensures WorkerOk(s', i) {
      HasWorker(s, i);
    }
  }

  lemma DeliverKeeps(s: State)
    requires Inv(s) && Enabled(s, Deliver)
    ensures Inv(Apply(s, Deliver))
  {
    hide IsAnswer, EventsOk, LogOk, WorkersOk, WorkerOk;
    var s' := Apply(s, Deliver);
    var dropped := s.(events := s.events[1..], gui := s'.gui);
    DropFirstPost(s, dropped);
    if s.events[0].token !in s.gui.cancelled {
      ArrivalIsLatest(s);
      EmitMore(dropped, s', s.events[0]);
    } else {
      StillPosted(s, s');
    }
  }

  /** Dropping a cancelled search's post does not drop the current one's. */
  lemma StillPosted(s: State, s': State)
    requires s.events != [] && s'.events == s.events[1..]
    ensures forall t :: Posted(s, t) && t != s.events[0].token ==> Posted(s', t)
  {
    forall t | Posted(s, t) && t != s.events[0].token ensures Posted(s', t) {
      var k :| 0 <= k < |s.events| && s.events[k].token == t;
      assert s'.events[k - 1] == s.events[k];
    }
  }

  lemma StepKeeps(s: State, a: Label)
    requires Inv(s) && Enabled(s, a)
    ensures Inv(Apply(s, a))
  {
    hide Inv;
    match a
    case Start(q) => StartKeeps(s, q);
    case CancelCurrent => CancelKeeps(s);
    case StoreChange(pool) => StoreKeeps(s, pool);
    case RunSearch(i, hits, complete) => RunSearchKeeps(s, i, hits, complete);
    case Build(i) => BuildKeeps(s, i);
    case PostResults(i) => PostKeeps(s, i);
    case Deliver => DeliverKeeps(s);
  }

  lemma {:induction false} RunKeeps(s: State, run: seq<Label>, s': State)
    requires Inv(s) && IsRun(s, run, s')
    ensures Inv(s')
    decreases |run|
  {
    hide Inv, Apply, Enabled;
    if run != [] {
      StepKeeps(s, run[0]);
      RunKeeps(Apply(s, run[0]), run[1..], s');
    }
  }

  /** Main theorem. Whatever the interleaving: every emission is the engine's full answer to its query
      on the pool it was computed from; searches emit in the order they started, each at most once;
      searching_ is true exactly while the latest search is uncancelled and has not emitted; and the
      next post to arrive is emitted only if it is the latest search's. */
  lemma NoStaleResults(start: State, run: seq<Label>, s: State)
    requires Initial(start) && IsRun(start, run, s)
    ensures forall m :: 0 <= m < |s.log| ==> s.log[m].results.complete && IsAnswer(s.log[m].results)
    ensures forall m, n :: 0 <= m < n < |s.log| ==> s.log[m].token < s.log[n].token
    ensures s.gui.searching <==>
      |s.workers| > 0 && |s.workers| - 1 !in s.gui.cancelled && !Delivered(s, |s.workers| - 1)
    ensures s.events != [] && Apply(s, Deliver).log != s.log ==>
      && s.events[0].token == |s.workers| - 1 && s.events[0].token !in s.gui.cancelled
      && Apply(s, Deliver).log == s.log + [s.events[0]] && !Apply(s, Deliver).gui.searching
  {
    hide Inv, IsAnswer, IsRun, Initial, Apply;
    InitialInv(start);
    RunKeeps(start, run, s);
    EmissionsInOrder(s);
    if s.events != [] {
      Arrival(s);
    }
  }

  lemma EmissionsInOrder(s: State)
    requires Inv(s)
    ensures forall m :: 0 <= m < |s.log| ==> s.log[m].results.complete && IsAnswer(s.log[m].results)
    ensures forall m, n :: 0 <= m < n < |s.log| ==> s.log[m].token < s.log[n].token
    ensures s.gui.searching <==>
      |s.workers| > 0 && |s.workers| - 1 !in s.gui.cancelled && !Delivered(s, |s.workers| - 1)
  {
    hide IsAnswer, EventsOk, WorkersOk, Delivered, Posted;
    forall m | 0 <= m < |s.log| ensures s.log[m].results.complete && IsAnswer(s.log[m].results) {
      assert EmittedOk(s, s.log[m]);
    }
  }

  lemma Arrival(s: State)
    requires Inv(s) && s.events != []
    ensures Enabled(s, Deliver)
    ensures Apply(s, Deliver).log != s.log ==>
      && s.events[0].token == |s.workers| - 1 && s.events[0].token !in s.gui.cancelled
      && Apply(s, Deliver).log == s.log + [s.events[0]] && !Apply(s, Deliver).gui.searching
  {
    hide Inv, IsAnswer;
    if s.events[0].token !in s.gui.cancelled {
      ArrivalIsLatest(s);
    }
  }

  lemma InitialInv(s: State)
    requires Initial(s)
    ensures Inv(s)
  {
  }

  lemma StepEmission(s: State, a: Label, token: nat)
    requires Enabled(s, a) && token in s.gui.cancelled
    ensures token in Apply(s, a).gui.cancelled
    ensures Delivered(Apply(s, a), token) ==> Delivered(s, token)
  {
    hide IsAnswer;
    var s' := Apply(s, a);
    if Delivered(s', token) {
      var m :| 0 <= m < |s'.log| && s'.log[m].token == token;
      assert m < |s.log| && s.log[m] == s'.log[m];
    }
  }

  /** Once cancelled, a search never emits. */
  lemma {:induction false} CancelledNeverEmits(s: State, run: seq<Label>, s': State, token: nat)
    requires IsRun(s, run, s') && token in s.gui.cancelled && !Delivered(s, token)
    ensures !Delivered(s', token)
    decreases |run|
  {
    hide Apply, Enabled, Delivered;
    if run != [] {
      StepEmission(s, run[0], token);
      CancelledNeverEmits(Apply(s, run[0]), run[1..], s', token);
    }
  }

  // ----- A new query supersedes the searches before it -----

  /** The query a worker thread was started for. */
  function QueryOf(w: Worker): Query {
    match w
    case Searching(q) => q
    case Building(r) => r.query
    case Posting(r) => r.query
    case Finished(q) => q
  }

  /** Starting any query, also one too short to search, cancels every search started before. */
  lemma StartCancels(start: State, run: seq<Label>, s: State, q: Query)
    requires Initial(start) && IsRun(start, run, s)
    ensures var s' := Apply(s, Start(q));
      && (forall t: nat :: t < s.gui.started ==> t in s'.gui.cancelled)
      && (s'.gui.searching <==> q.length >= 2)
      && s'.log == s.log
  {
    hide Initial, IsRun, Inv, Apply;
    InitialInv(start);
    RunKeeps(start, run, s);
    StartCancelsAll(s, q);
  }

  lemma StartCancelsAll(s: State, q: Query)
    requires Inv(s)
    ensures var s' := Apply(s, Start(q));
      && (forall t: nat :: t < s.gui.started ==> t in s'.gui.cancelled)
      && (s'.gui.searching <==> q.length >= 2)
      && s'.log == s.log
  {
    hide WorkersOk, EventsOk, LogOk, SearchingOk;
  }

  /** So nothing started before a query is emitted after it. */
  lemma SupersededNeverEmits(start: State, run: seq<Label>, s: State, q: Query, rest: seq<Label>, s': State)
    requires Initial(start) && IsRun(start, run, s) && IsRun(Apply(s, Start(q)), rest, s')
    ensures forall t: nat :: t < s.gui.started && !Delivered(s, t) ==> !Delivered(s', t)
  {
    StartCancels(start, run, s, q);
    hide Initial, IsRun, Apply;
    var begun := Apply(s, Start(q));
    forall t: nat | t < s.gui.started && !Delivered(s, t) ensures !Delivered(s', t) {
      CancelledNeverEmits(begun, rest, s', t);
    }
  }

  lemma QueryStays(s: State, a: Label, token: nat)
    requires Inv(s) && Enabled(s, a) && token < |s.workers|
    ensures var s' := Apply(s, a); token < |s'.workers| && QueryOf(s'.workers[token]) == QueryOf(s.workers[token])
  {
    hide Inv, IsAnswer;
  }

  lemma {:induction false} RunQueryStays(s: State, run: seq<Label>, s': State, token: nat)
    requires Inv(s) && IsRun(s, run, s') && token < |s.workers|
    ensures token < |s'.workers| && QueryOf(s'.workers[token]) == QueryOf(s.workers[token])
    decreases |run|
  {
    hide Inv, Apply, Enabled, QueryOf;
    if run != [] {
      QueryStays(s, run[0], token);
      StepKeeps(s, run[0]);
      RunQueryStays(Apply(s, run[0]), run[1..], s', token);
    }
  }

  /** And what the search started for a query emits is the full answer to that very query. */
  lemma AnswersItsQuery(start: State, run: seq<Label>, s: State, q: Query, rest: seq<Label>, s': State)
    requires Initial(start) && IsRun(start, run, s) && IsRun(Apply(s, Start(q)), rest, s') && q.length >= 2
    ensures forall m :: 0 <= m < |s'.log| && s'.log[m].token == s.gui.started ==>
      s'.log[m].results.query == q && s'.log[m].results.complete && IsAnswer(s'.log[m].results)
  {
    InitialInv(start);
    RunKeeps(start, run, s);
    StartedFor(s, q);
    hide Initial, IsRun, Apply, Inv, IsAnswer;
    var begun := Apply(s, Start(q));
    StepKeeps(s, Start(q));
    RunKeeps(begun, rest, s');
    RunQueryStays(begun, rest, s', s.gui.started);
    forall m | 0 <= m < |s'.log| && s'.log[m].token == s.gui.started
      ensures s'.log[m].results.query == q && s'.log[m].results.complete && IsAnswer(s'.log[m].results)
    {
      EmittedQuery(s', m);
    }
  }

  lemma StartedFor(s: State, q: Query)
    requires Inv(s) && q.length >= 2
    ensures var s' := Apply(s, Start(q));
      s.gui.started < |s'.workers| && QueryOf(s'.workers[s.gui.started]) == q && Enabled(s, Start(q))
  {
    hide WorkersOk, EventsOk, LogOk, SearchingOk;
  }

  lemma EmittedQuery(s: State, m: nat)
    requires Inv(s) && m < |s.log|
    ensures var e := s.log[m];
      && e.token < |s.workers| && QueryOf(s.workers[e.token]) == e.results.query
      && e.results.complete && IsAnswer(e.results)
  {
    hide WorkersOk, EventsOk, SearchingOk, TokensOk, IsAnswer;
    assert EmittedOk(s, s.log[m]);
  }
}
