/** Substring and token search over a pool (src/core/search/SearchEngine.cpp), without regex mode
    and diacritics folding. */
module SearchEngine {
  import opened Common
  import opened Tokens
  import opened IndexPools
  import SubstringScan

  const MAX_RESULTS := 10000

  datatype SearchOptions = SearchOptions(caseSensitive: bool, wholeWord: bool, matchPath: bool)

  datatype SearchResult = SearchResult(entryIndex: nat, matchStart: nat, matchLen: nat)

  function Subject(v: EntryView, o: SearchOptions): string {
    if o.matchPath then (if o.caseSensitive then v.path else CaseFold(v.path))
    else if o.caseSensitive then v.name
    else v.nameLower
  }

  function QueryText(query: string, o: SearchOptions): string {
    if o.caseSensitive then query else CaseFold(query)
  }

  predicate IsWholeWord(subject: string, start: nat, length: nat)
    requires start + length <= |subject|
  {
    && (start == 0 || IsSeparator(subject[start - 1]))
    && (start + length == |subject| || IsSeparator(subject[start + length]))
  }

  /** std::string_view::find from position i. */
  function FindFrom(text: string, needle: string, i: nat): (r: Option<nat>)
    ensures r.Some? ==> OccursAt(text, needle, r.value) && i <= r.value
    ensures forall k: nat :: i <= k && (r.Some? ==> k < r.value) ==> !OccursAt(text, needle, k)
    decreases |text| - i
  {
    if i + |needle| > |text| then None
    else if text[i..i + |needle|] == needle then Some(i)
    else FindFrom(text, needle, i + 1)
  }

  function Find(text: string, needle: string): Option<nat> {
    FindFrom(text, needle, 0)
  }

  lemma FirstIsFound(text: string, needle: string, r: Option<nat>)
    requires SubstringScan.IsFirstOccurrence(text, needle, r)
    ensures r == Find(text, needle)
  {
  }

  lemma FindContains(text: string, needle: string)
    ensures Find(text, needle).Some? <==> Contains(text, needle)
  {
    if Find(text, needle).Some? {
      assert OccursAt(text, needle, Find(text, needle).value);
    }
  }

  // ----- What a search means -----

  /** Whether an entry matches, in terms of substrings and tokens alone. */
  ghost predicate Matches(v: EntryView, query: string, o: SearchOptions) {
    var subject, text := Subject(v, o), QueryText(query, o);
    if HasSeparator(query) then MatchesAllTokens(TokensOf(text), TokensOf(subject))
    else
      && Contains(subject, text)
      && (o.wholeWord ==> FirstIsWholeWord(subject, text))
  }

  /** Whole-word mode looks at the first occurrence only. */
  ghost predicate FirstIsWholeWord(subject: string, text: string) {
    var at := Find(subject, text);
    at.Some? && IsWholeWord(subject, at.value, |text|)
  }

  /** The reported span: the first occurrence of the query, or of its first token. */
  ghost predicate IsHit(r: SearchResult, i: nat, v: EntryView, query: string, o: SearchOptions) {
    var subject, text := Subject(v, o), QueryText(query, o);
    && r.entryIndex == i
    && if HasSeparator(query) && |TokensOf(text)| == 0 then r.matchStart == r.matchLen == 0
       else
         var needle := if HasSeparator(query) then TokensOf(text)[0] else text;
         Find(subject, needle) == Some(r.matchStart) && r.matchLen == |needle|
  }

  /** The live matching entries among the first n, in index order. */
  ghost function Matching(p: Pool, query: string, o: SearchOptions, n: nat): (r: seq<nat>)
    requires ValidPool(p) && n <= |p.meta|
    ensures forall k :: 0 <= k < |r| ==> r[k] < n
  {
    if n == 0 then []
    else if !p.meta[n - 1].deleted && Matches(View(p, n - 1), query, o)
    then Matching(p, query, o, n - 1) + [n - 1]
    else Matching(p, query, o, n - 1)
  }

  ghost predicate AreHits(results: seq<SearchResult>, indices: seq<nat>, p: Pool, query: string, o: SearchOptions)
    requires ValidPool(p)
  {
    && |results| == |indices|
    && forall k :: 0 <= k < |results| ==>
         indices[k] < |p.meta| && IsHit(results[k], indices[k], View(p, indices[k]), query, o)
  }

  function Capped(indices: seq<nat>): seq<nat> {
    if |indices| <= MAX_RESULTS then indices else indices[..MAX_RESULTS]
  }

  // ----- The same in terms of an entry's own fields -----

  /** Substring mode: the path or the name, folded or not, contains the query. */
  lemma SubstringMatches(v: EntryView, query: string, o: SearchOptions)
    requires Faithful(v) && !HasSeparator(query) && !o.wholeWord
    ensures o.matchPath && o.caseSensitive ==> (Matches(v, query, o) <==> Contains(v.path, query))
    ensures o.matchPath && !o.caseSensitive ==>
      (Matches(v, query, o) <==> Contains(CaseFold(v.path), CaseFold(query)))
    ensures !o.matchPath && o.caseSensitive ==> (Matches(v, query, o) <==> Contains(v.name, query))
    ensures !o.matchPath && !o.caseSensitive ==>
      (Matches(v, query, o) <==> Contains(CaseFold(v.name), CaseFold(query)))
  {
  }

  /** Whole-word mode: the first occurrence starts and ends at a separator or an end of the text. */
  ghost predicate FirstStandsAlone(text: string, needle: string) {
    exists at: nat :: IsFirstAt(text, needle, at) && StandsAlone(text, at, |needle|)
  }

  ghost predicate IsFirstAt(text: string, needle: string, at: nat) {
    OccursAt(text, needle, at) && forall k: nat :: k < at ==> !OccursAt(text, needle, k)
  }

  predicate StandsAlone(text: string, at: nat, length: nat) {
    && (0 < at <= |text| ==> IsSeparator(text[at - 1]))
    && (at + length < |text| ==> IsSeparator(text[at + length]))
  }

  lemma WholeWordMatches(v: EntryView, query: string, o: SearchOptions)
    requires Faithful(v) && !HasSeparator(query) && o.wholeWord
    ensures o.matchPath && o.caseSensitive ==> (Matches(v, query, o) <==> FirstStandsAlone(v.path, query))
    ensures o.matchPath && !o.caseSensitive ==>
      (Matches(v, query, o) <==> FirstStandsAlone(CaseFold(v.path), CaseFold(query)))
    ensures !o.matchPath && o.caseSensitive ==> (Matches(v, query, o) <==> FirstStandsAlone(v.name, query))
    ensures !o.matchPath && !o.caseSensitive ==>
      (Matches(v, query, o) <==> FirstStandsAlone(CaseFold(v.name), CaseFold(query)))
  {
    FirstAlone(Subject(v, o), QueryText(query, o));
    hide FirstStandsAlone, FirstIsWholeWord, Contains;
  }

  lemma FirstAlone(text: string, needle: string)
    ensures Contains(text, needle) && FirstIsWholeWord(text, needle) <==> FirstStandsAlone(text, needle)
  {
    FindContains(text, needle);
    FirstAt(text, needle);
    hide Find, Contains, IsFirstAt, OccursAt, IsSeparator;
  }

  lemma FirstAt(text: string, needle: string)
    ensures forall at: nat :: IsFirstAt(text, needle, at) <==> Find(text, needle) == Some(at)
    ensures Find(text, needle).Some? ==> Find(text, needle).value + |needle| <= |text|
  {
    forall at: nat ensures IsFirstAt(text, needle, at) <==> Find(text, needle) == Some(at) {
      hide FindFrom;
    }
  }

  /** Token mode: every token of the query is in some token of the path or the name. */
  lemma TokenMatches(v: EntryView, query: string, o: SearchOptions)
    requires Faithful(v) && HasSeparator(query)
    ensures o.matchPath && o.caseSensitive ==>
      (Matches(v, query, o) <==> MatchesAllTokens(TokensOf(query), TokensOf(v.path)))
    ensures o.matchPath && !o.caseSensitive ==>
      (Matches(v, query, o) <==> MatchesAllTokens(TokensOf(CaseFold(query)), TokensOf(CaseFold(v.path))))
    ensures !o.matchPath && o.caseSensitive ==>
      (Matches(v, query, o) <==> MatchesAllTokens(TokensOf(query), TokensOf(v.name)))
    ensures !o.matchPath && !o.caseSensitive ==>
      (Matches(v, query, o) <==> MatchesAllTokens(TokensOf(CaseFold(query)), TokensOf(CaseFold(v.name))))
  {
    hide MatchesAllTokens, TokensOf;
  }

  /** The span is the first place in the text where the needle is. */
  ghost predicate SpansFirst(r: SearchResult, text: string, needle: string) {
    r.matchLen == |needle| && IsFirstAt(text, needle, r.matchStart)
  }

  /** What a hit's span must be in one text: the query, or its first token in token mode; nothing if the
      query has no token. */
  ghost predicate SpanIn(r: SearchResult, text: string, query: string) {
    if !HasSeparator(query) then SpansFirst(r, text, query)
    else if TokensOf(query) == [] then r.matchStart == r.matchLen == 0
    else SpansFirst(r, text, TokensOf(query)[0])
  }

  /** The reported span lies in the path in path mode and in the name otherwise, folded like them. */
  lemma HitSpans(r: SearchResult, i: nat, v: EntryView, query: string, o: SearchOptions)
    requires Faithful(v) && IsHit(r, i, v, query, o)
    ensures r.entryIndex == i
    ensures o.matchPath && o.caseSensitive ==> SpanIn(r, v.path, query)
    ensures o.matchPath && !o.caseSensitive ==> SpanIn(r, CaseFold(v.path), CaseFold(query))
    ensures !o.matchPath && o.caseSensitive ==> SpanIn(r, v.name, query)
    ensures !o.matchPath && !o.caseSensitive ==> SpanIn(r, CaseFold(v.name), CaseFold(query))
  {
    FoldKeepsSeparator(query);
    hide TokensOf, IsSeparator, CaseFold;
  }

  lemma FoldKeepsSeparator(query: string)
    ensures HasSeparator(CaseFold(query)) <==> HasSeparator(query)
  {
    forall i | 0 <= i < |query| ensures IsSeparator(CaseFold(query)[i]) == IsSeparator(query[i]) {
      FoldKeepsSeparators(query, i);
    }
  }

  // ----- The search loop -----

  predicate AllTokensFound(queryTokens: seq<string>, nameTokens: seq<string>) {
    forall q :: q in queryTokens ==> exists t :: t in nameTokens && Find(t, q).Some?
  }

  lemma AllTokensFoundMeaning(queryTokens: seq<string>, nameTokens: seq<string>)
    ensures AllTokensFound(queryTokens, nameTokens) <==> MatchesAllTokens(queryTokens, nameTokens)
  {
    forall t, q ensures Find(t, q).Some? <==> Contains(t, q) {
      FindContains(t, q);
    }
  }

  /** The tokens the loop matches against: cached spans for names, live tokenizing for paths. */
  lemma CachedTokens(v: EntryView, o: SearchOptions)
    requires Faithful(v) && !o.matchPath
    ensures SpansFit(Subject(v, o), v.spans) && Slices(Subject(v, o), v.spans) == TokensOf(Subject(v, o))
  {
    FoldKeepsSpans(v.name);
    SpansAreTokens(Subject(v, o));
  }

  method SearchEntry(i: nat, v: EntryView, query: string, queryText: string, queryTokens: seq<string>,
                     o: SearchOptions, chunkWidth: nat) returns (hit: Option<SearchResult>)
    requires Faithful(v) && 1 <= chunkWidth <= 32
    requires queryText == QueryText(query, o)
    requires HasSeparator(query) ==> queryTokens == TokensOf(queryText)
    ensures hit.Some? <==> Matches(v, query, o)
    ensures hit.Some? ==> IsHit(hit.value, i, v, query, o)
  {
    var subject := Subject(v, o);
    if HasSeparator(query) {
      var nameTokens;
      if !o.matchPath {
        CachedTokens(v, o);
        nameTokens := Slices(subject, v.spans);
      } else {
        nameTokens := TokenizeInto(subject);
      }
      AllTokensFoundMeaning(queryTokens, nameTokens);
      if !AllTokensFound(queryTokens, nameTokens) {
        return None;
      }
      var result := SearchResult(i, 0, 0);
      if |queryTokens| > 0 {
        var pos := SubstringScan.FindSubstring(subject, queryTokens[0], chunkWidth);
        FirstIsFound(subject, queryTokens[0], pos);
        FirstTokenFound(subject, queryTokens);
        if pos != None {
          result := SearchResult(i, pos.value, |queryTokens[0]|);
        }
      }
      return Some(result);
    }
    var pos := SubstringScan.FindSubstring(subject, queryText, chunkWidth);
    FirstIsFound(subject, queryText, pos);
    FindContains(subject, queryText);
    if pos != None && (!o.wholeWord || IsWholeWord(subject, pos.value, |queryText|)) {
      return Some(SearchResult(i, pos.value, |queryText|));
    }
    return None;
  }

  /** In token mode the first query token is always found in the subject itself. */
  lemma FirstTokenFound(subject: string, queryTokens: seq<string>)
    requires |queryTokens| > 0 && MatchesAllTokens(queryTokens, TokensOf(subject))
    ensures Find(subject, queryTokens[0]).Some?
  {
    assert queryTokens[0] in queryTokens;
    var t :| t in TokensOf(subject) && Contains(t, queryTokens[0]);
    TokenOccursInText(subject, t, queryTokens[0]);
    FindContains(subject, queryTokens[0]);
  }

  /** The search loop. `cancelled(i)` is the cancel token's value when the loop reads it before
      entry i; `seen` is the number of entries processed. */
  method Search(pool: IndexPool, query: string, o: SearchOptions, chunkWidth: nat, cancelled: nat -> bool)
    returns (results: seq<SearchResult>, ghost seen: nat)
    requires pool.Valid() && FaithfulPool(pool.Rep()) && 1 <= chunkWidth <= 32
    ensures seen <= |pool.meta| && |results| <= 10_000
    ensures forall k :: 0 <= k < seen ==> !cancelled(k)
    ensures AreHits(results, Matching(pool.Rep(), query, o, seen), pool.Rep(), query, o)
    ensures seen < |pool.meta| ==> cancelled(seen) || |results| == MAX_RESULTS
    ensures (forall i :: 0 <= i < |pool.meta| ==> !cancelled(i)) ==>
      AreHits(results, Capped(Matching(pool.Rep(), query, o, |pool.meta|)), pool.Rep(), query, o)
  {
    hide Matches, IsHit, View, Faithful, InRange, Matching, AreHits, Capped, IsSeparator, CaseFold, ValidPool;
    ghost var p := pool.Rep();
    NoHits(p, query, o);
    var queryText := QueryText(query, o);
    var queryTokens: seq<string> := [];
    if HasSeparator(query) {
      queryTokens := TokenizeInto(queryText);
    }
    results := [];
    var i := 0;
    while i < |pool.meta|
      invariant i <= |pool.meta| && |results| < MAX_RESULTS
      invariant forall k :: 0 <= k < i ==> !cancelled(k)
      invariant AreHits(results, Matching(p, query, o, i), p, query, o)
    {
      if cancelled(i) {
        return results, i;
      }
      ghost var before := results;
      if !pool.meta[i].deleted {
        var entry := pool.GetEntry(i);
        var hit := SearchEntry(i, entry, query, queryText, queryTokens, o, chunkWidth);
        if hit != None {
          results := results + [hit.value];
        }
        HitsStep(p, query, o, i, before, hit);
      } else {
        HitsSkip(p, query, o, i, before);
      }
      i := i + 1;
      if |results| >= MAX_RESULTS {
        break;
      }
    }
    seen := i;
    CappedHits(p, query, o, seen, results);
  }

  lemma NoHits(p: Pool, query: string, o: SearchOptions)
    requires ValidPool(p)
    ensures AreHits([], Matching(p, query, o, 0), p, query, o)
  {
  }

  lemma CappedHits(p: Pool, query: string, o: SearchOptions, seen: nat, results: seq<SearchResult>)
    requires ValidPool(p) && seen <= |p.meta| && |results| <= MAX_RESULTS
    requires AreHits(results, Matching(p, query, o, seen), p, query, o)
    requires seen == |p.meta| || |results| == MAX_RESULTS
    ensures AreHits(results, Capped(Matching(p, query, o, |p.meta|)), p, query, o)
  {
    MatchingPrefix(p, query, o, seen, |p.meta|);
    hide Matching;
    assert Capped(Matching(p, query, o, |p.meta|)) == Matching(p, query, o, seen);
  }

  lemma HitsStep(p: Pool, query: string, o: SearchOptions, i: nat, before: seq<SearchResult>, hit: Option<SearchResult>)
    requires ValidPool(p) && i < |p.meta| && !p.meta[i].deleted
    requires AreHits(before, Matching(p, query, o, i), p, query, o)
    requires hit.Some? <==> Matches(View(p, i), query, o)
    requires hit.Some? ==> IsHit(hit.value, i, View(p, i), query, o)
    ensures AreHits(if hit == None then before else before + [hit.value], Matching(p, query, o, i + 1), p, query, o)
  {
    hide Matches, IsHit, View;
  }

  lemma HitsSkip(p: Pool, query: string, o: SearchOptions, i: nat, before: seq<SearchResult>)
    requires ValidPool(p) && i < |p.meta| && p.meta[i].deleted
    requires AreHits(before, Matching(p, query, o, i), p, query, o)
    ensures AreHits(before, Matching(p, query, o, i + 1), p, query, o)
  {
  }

  lemma {:induction false} MatchingPrefix(p: Pool, query: string, o: SearchOptions, m: nat, n: nat)
    requires ValidPool(p) && m <= n <= |p.meta|
    ensures Matching(p, query, o, m) <= Matching(p, query, o, n)
    decreases n
  {
    hide Matches, View;
    if m < n {
      MatchingPrefix(p, query, o, m, n - 1);
    }
  }

  /** `Matching` lists exactly the live matching entries, each once, in ascending order. */
  lemma {:induction false} MatchingIsExact(p: Pool, query: string, o: SearchOptions, n: nat)
    requires ValidPool(p) && n <= |p.meta|
    ensures forall i :: i in Matching(p, query, o, n) <==>
      0 <= i < n && !p.meta[i].deleted && Matches(View(p, i), query, o)
    ensures forall j, k :: 0 <= j < k < |Matching(p, query, o, n)| ==>
      Matching(p, query, o, n)[j] < Matching(p, query, o, n)[k]
  {
    hide Matches, View;
    if n > 0 {
      MatchingIsExact(p, query, o, n - 1);
    }
  }

  // ----- Narrowing as the query is typed -----

  lemma FoldPrefix(query: string, n: nat)
    requires n <= |query|
    ensures CaseFold(query[..n]) == CaseFold(query)[..n]
  {
  }

  lemma QueryTextPrefix(query: string, n: nat, o: SearchOptions)
    requires n <= |query|
    ensures QueryText(query[..n], o) == QueryText(query, o)[..n] && |QueryText(query, o)| == |query|
    ensures HasSeparator(query) <==> HasSeparator(QueryText(query, o))
  {
    FoldPrefix(query, n);
    forall i | 0 <= i < |query| ensures IsSeparator(CaseFold(query)[i]) == IsSeparator(query[i]) {
      FoldKeepsSeparators(query, i);
    }
  }

  lemma ContainsPrefix(text: string, needle: string, prefix: string)
    requires Contains(text, needle) && prefix <= needle
    ensures Contains(text, prefix)
  {
    var at: nat :| OccursAt(text, needle, at);
    assert text[at..at + |prefix|] == text[at..at + |needle|][..|prefix|];
    assert OccursAt(text, prefix, at);
  }

  /** As-you-type narrowing: without whole-word mode, or once the prefix is searched as tokens, an
      entry that matches a query matches the prefix, also where the prefix is searched as a substring
      and the query as tokens. */
  lemma Narrowing(v: EntryView, query: string, n: nat, o: SearchOptions)
    requires n <= |query| && Matches(v, query, o)
    ensures !o.wholeWord || HasSeparator(query[..n]) ==> Matches(v, query[..n], o)
  {
    var subject, text := Subject(v, o), QueryText(query, o);
    QueryTextPrefix(query, n, o);
    QueryTextPrefix(query, |query|, o);
    assert query[..|query|] == query;
    QueryTextPrefix(query[..n], n, o);
    PrefixSeparator(query, n);
    hide Subject, QueryText, CaseFold;
    if !HasSeparator(query) {
      ContainsPrefix(subject, text, text[..n]);
    } else if HasSeparator(query[..n]) {
      TokenPrefixesMatch(subject, text, n);
    } else {
      SwitchToTokens(subject, text, n);
    }
  }

  lemma PrefixSeparator(query: string, n: nat)
    requires n <= |query|
    ensures HasSeparator(query[..n]) ==> HasSeparator(query)
  {
    assert forall i :: 0 <= i < n ==> query[..n][i] == query[i];
  }

  /** As-you-type narrowing of whole result lists: without whole-word mode, every entry matching a
      query matches each prefix of it, so the matches of a longer query are among the shorter one's. */
  lemma MatchingNarrows(p: Pool, query: string, n: nat, o: SearchOptions, i: nat)
    requires ValidPool(p) && n <= |query| && !o.wholeWord
    requires i in Matching(p, query, o, |p.meta|)
    ensures i in Matching(p, query[..n], o, |p.meta|)
  {
    hide Matches, View, Matching;
    MatchingIsExact(p, query, o, |p.meta|);
    MatchingIsExact(p, query[..n], o, |p.meta|);
    Narrowing(View(p, i), query, n, o);
  }

  lemma TokenPrefixesMatch(subject: string, text: string, n: nat)
    requires n <= |text| && MatchesAllTokens(TokensOf(text), TokensOf(subject))
    ensures MatchesAllTokens(TokensOf(text[..n]), TokensOf(subject))
  {
    hide TokensOf;
    forall q | q in TokensOf(text[..n]) ensures exists t :: t in TokensOf(subject) && Contains(t, q) {
      var whole := PrefixTokens(text, n, q);
      var t :| t in TokensOf(subject) && Contains(t, whole);
      ContainsPrefix(t, whole, q);
    }
  }

  /** The switch: a separator-free prefix is a prefix of the first token. */
  lemma SwitchToTokens(subject: string, text: string, n: nat)
    requires n <= |text| && !HasSeparator(text[..n])
    requires MatchesAllTokens(TokensOf(text), TokensOf(subject))
    ensures Contains(subject, text[..n])
  {
    if n == 0 {
      assert OccursAt(subject, text[..0], 0);
    } else {
      forall k | 0 <= k < n ensures !IsSeparator(text[k]) {
        assert text[k] == text[..n][k];
      }
      var s := TokenAround(text, 0, n);
      var q := TokenOfSpan(text, s);
      hide TokensOf;
      assert text[..n] == q[..n];
      var t :| t in TokensOf(subject) && Contains(t, q);
      ContainsPrefix(t, q, text[..n]);
      TokenOccursInText(subject, t, text[..n]);
    }
  }

  // ----- Whole-word mode, exactly -----

  /** The entry of a file with this name in the current directory. */
  function EntryNamed(name: Text): (v: EntryView)
    ensures Faithful(v) && forall o :: Subject(v, o) == QueryText(name, o)
  {
    EntryView(name, CaseFold(name), name, 0, 0, 0, Spans(CaseFold(name)))
  }

  /** A needle right behind a first letter is not found as a whole word. */
  lemma BehindLetter(rest: string, needle: string)
    requires needle <= rest && !HasSeparator(needle)
    ensures !FirstIsWholeWord("x" + rest, needle)
  {
    var subject := "x" + rest;
    assert subject[1..1 + |needle|] == rest[..|needle|];
    assert OccursAt(subject, needle, 1);
    if Find(subject, needle) == Some(0) && needle != "" {
      assert subject[|needle|] == rest[|needle| - 1] == needle[|needle| - 1];
    }
  }

  lemma LetterBefore(rest: Text, o: SearchOptions)
    ensures QueryText("x" + rest, o) == "x" + QueryText(rest, o)
  {
  }

  /** A separator-free query finds the entry it names; no proper prefix of the query does. */
  lemma NamedByQuery(query: Text, n: nat, o: SearchOptions)
    requires o.wholeWord && n < |query| && !HasSeparator(query)
    ensures Matches(EntryNamed(query), query, o) && !Matches(EntryNamed(query), query[..n], o)
  {
    var v, text := EntryNamed(query), QueryText(query, o);
    QueryTextPrefix(query, n, o);
    PrefixSeparator(query, n);
    hide QueryText, CaseFold;
    assert Subject(v, o) == text;
    assert OccursAt(text, text, 0) && OccursAt(text, text[..n], 0);
    assert Find(text, text) == Some(0) && Find(text, text[..n]) == Some(0);
  }

  /** A query with a separator finds the entry named by it with a letter in front; a separator-free
      prefix of the query does not. */
  lemma NamedBehindLetter(query: Text, n: nat, o: SearchOptions)
    requires o.wholeWord && n <= |query| && HasSeparator(query) && !HasSeparator(query[..n])
    ensures Matches(EntryNamed("x" + query), query, o) && !Matches(EntryNamed("x" + query), query[..n], o)
  {
    var v, text := EntryNamed("x" + query), QueryText(query, o);
    QueryTextPrefix(query, n, o);
    QueryTextPrefix(query[..n], n, o);
    LetterBefore(query, o);
    assert !HasSeparator(text[..n]) by { assert query[..n][..n] == query[..n]; }
    hide QueryText, CaseFold;
    assert Subject(v, o) == "x" + text;
    BehindLetter(text, text[..n]);
    TokensBehindLetter(text);
  }

  lemma TokensBehindLetter(text: string)
    ensures MatchesAllTokens(TokensOf(text), TokensOf("x" + text))
  {
    hide TokensOf, Contains;
    forall q | q in TokensOf(text) ensures exists t :: t in TokensOf("x" + text) && Contains(t, q) {
      var t := TokenBehindLetter(text, q);
    }
  }

  lemma TokenBehindLetter(text: string, q: string) returns (t: string)
    requires q in TokensOf(text)
    ensures t in TokensOf("x" + text) && Contains(t, q)
  {
    var s := SpanOfToken(text, q);
    hide TokensOf, Contains, Spans;
    SliceAfter("x", text, s.offset + s.length);
    SliceOfSlice("x" + text, 1, 1 + s.offset + s.length, s.offset, s.offset + s.length);
    assert text[..s.offset + s.length][s.offset..] == q;
    assert !HasSeparator(q) by {
      assert forall k :: 0 <= k < |q| ==> q[k] == text[s.offset + k];
    }
    t := TokenWithNeedle("x" + text, q, 1 + s.offset);
  }

  /** As-you-type narrowing with whole-word mode on, exactly: the entries a query finds are among those
      its prefix finds if and only if the prefix is the whole query or already has a separator. */
  lemma WholeWordNarrowsExactly(query: Text, n: nat, o: SearchOptions)
    requires o.wholeWord && n <= |query|
    ensures (forall v :: Faithful(v) && Matches(v, query, o) ==> Matches(v, query[..n], o)) <==>
      n == |query| || HasSeparator(query[..n])
  {
    hide Matches, Faithful;
    if n == |query| {
      assert query[..n] == query;
    } else if HasSeparator(query[..n]) {
      forall v | Faithful(v) && Matches(v, query, o) ensures Matches(v, query[..n], o) {
        Narrowing(v, query, n, o);
      }
    } else if HasSeparator(query) {
      NamedBehindLetter(query, n, o);
    } else {
      NamedByQuery(query, n, o);
    }
  }

  /** An instance: "ab" is no whole word of "abc", but "abc" is. */
  lemma WholeWordDoesNotNarrow(o: SearchOptions)
    requires o.wholeWord
    ensures Matches(EntryNamed("abc"), "abc", o) && !Matches(EntryNamed("abc"), "ab", o)
  {
    NamedByQuery("abc", 2, o);
    assert "abc"[..2] == "ab";
  }

  /** The needle occurs somewhere as a whole word. */
  ghost predicate HasWholeWord(subject: string, needle: string) {
    exists at: nat :: OccursAt(subject, needle, at) && IsWholeWord(subject, at, |needle|)
  }

  /** A whole-word occurrence comes after a first occurrence that is none. */
  ghost predicate WholeWordLater(subject: string, needle: string) {
    var first := Find(subject, needle);
    && first.Some? && !IsWholeWord(subject, first.value, |needle|)
    && exists at: nat :: first.value < at && OccursAt(subject, needle, at) && IsWholeWord(subject, at, |needle|)
  }

  /** Whole-word mode tests only the first occurrence. For one entry that is right, in the sense that
      the entry is found exactly when the query is a whole word of it somewhere, if and only if no
      whole-word occurrence follows a first occurrence that is none. */
  lemma WholeWordExactly(v: EntryView, query: string, o: SearchOptions)
    requires o.wholeWord && !HasSeparator(query)
    ensures var subject, text := Subject(v, o), QueryText(query, o);
      (Matches(v, query, o) <==> HasWholeWord(subject, text)) <==> !WholeWordLater(subject, text)
  {
    FindContains(Subject(v, o), QueryText(query, o));
    hide Subject, QueryText, IsWholeWord;
  }

  /** And no separator-free query is right on all entries: for each one there is an entry with the
      query as a whole word that it does not find. */
  lemma WholeWordTestsFirstOnly(query: Text, o: SearchOptions) returns (v: EntryView)
    requires o.wholeWord && !HasSeparator(query)
    ensures Faithful(v) && HasWholeWord(Subject(v, o), QueryText(query, o)) && !Matches(v, query, o)
  {
    var text := QueryText(query, o);
    v := EntryNamed("x" + (query + (" " + query)));
    SecondCopy(query, o);
    QueryTextPrefix(query, 0, o);
    hide QueryText, CaseFold, IsWholeWord;
    var subject := "x" + (text + (" " + text));
    BehindLetter(text + (" " + text), text);
    WholeAtEnd(text);
    assert OccursAt(subject, text, |text| + 2);
  }

  lemma WholeAtEnd(text: string)
    ensures var subject := "x" + (text + (" " + text));
      OccursAt(subject, text, |text| + 2) && IsWholeWord(subject, |text| + 2, |text|)
  {
  }

  lemma SecondCopy(query: Text, o: SearchOptions)
    ensures var text := QueryText(query, o);
      QueryText("x" + (query + (" " + query)), o) == "x" + (text + (" " + text))
  {
  }
}
