/** Tokenizing (src/core/search/TokenMatcher.cpp, src/core/storage/IndexPool.cpp:14-58): the span
    loop, the view loop, case folding, and what a token is, declaratively. */
module Tokens {
  import opened Common

  predicate IsSeparator(c: char) {
    c == ' ' || c == '_' || c == '-' || c == '.'
  }

  datatype TokenSpan = TokenSpan(offset: nat, length: nat)

  /** text[span] is a maximal non-empty run of non-separators. */
  ghost predicate IsToken(text: string, s: TokenSpan) {
    && 0 < s.length && s.offset + s.length <= |text|
    && (forall k :: s.offset <= k < s.offset + s.length ==> !IsSeparator(text[k]))
    && (s.offset == 0 || IsSeparator(text[s.offset - 1]))
    && (s.offset + s.length == |text| || IsSeparator(text[s.offset + s.length]))
  }

  /** The start of the run of non-separators that ends just before position i (i if there is none). */
  function RunStart(text: string, i: nat): (r: nat)
    requires i <= |text|
    ensures r <= i
    ensures forall k :: r <= k < i ==> !IsSeparator(text[k])
    ensures r == 0 || IsSeparator(text[r - 1])
  {
    if i == 0 || IsSeparator(text[i - 1]) then i else RunStart(text, i - 1)
  }

  /** The tokens that end at or before position i - 1, followed by a separator there. */
  function ClosedSpans(text: string, i: nat): seq<TokenSpan>
    requires i <= |text|
  {
    if i == 0 then []
    else if IsSeparator(text[i - 1]) && RunStart(text, i - 1) < i - 1 then
      ClosedSpans(text, i - 1) + [TokenSpan(RunStart(text, i - 1), i - 1 - RunStart(text, i - 1))]
    else ClosedSpans(text, i - 1)
  }

  function Spans(text: string): seq<TokenSpan> {
    var start := RunStart(text, |text|);
    ClosedSpans(text, |text|) +
    if start < |text| then [TokenSpan(start, |text| - start)] else []
  }

  function Slice(text: string, s: TokenSpan): string
    requires s.offset + s.length <= |text|
  {
    text[s.offset..s.offset + s.length]
  }

  ghost predicate SpansFit(text: string, spans: seq<TokenSpan>) {
    forall i :: 0 <= i < |spans| ==> spans[i].offset + spans[i].length <= |text|
  }

  /** The views ApplyTokenSpans writes for a cached span list. */
  function Slices(text: string, spans: seq<TokenSpan>): (r: seq<string>)
    requires SpansFit(text, spans)
    ensures |r| == |spans| && forall i :: 0 <= i < |r| ==> r[i] == Slice(text, spans[i])
  {
    seq(|spans|, i requires 0 <= i < |spans| && SpansFit(text, spans) => Slice(text, spans[i]))
  }

  function TokensOf(text: string): (r: seq<string>)
    ensures SpansFit(text, Spans(text)) && r == Slices(text, Spans(text))
  {
    SpansAreTokens(text);
    Slices(text, Spans(text))
  }

  /** Exactly the space, the underscore, the hyphen and the dot separate tokens. */
  lemma SeparatorsAre(c: char)
    ensures HasSeparator([c]) <==> c in " _-."
  {
    assert [c][0] == c;
  }

  // ----- The two loops -----

  method TokenizeToSpans(text: string) returns (spans: seq<TokenSpan>)
    ensures spans == Spans(text)
  {
    spans := [];
    var tokenStart, inToken := 0, false;
    for i := 0 to |text|
      invariant spans == ClosedSpans(text, i)
      invariant inToken <==> RunStart(text, i) < i
      invariant inToken ==> tokenStart == RunStart(text, i)
    {
      if IsSeparator(text[i]) {
        if inToken {
          spans := spans + [TokenSpan(tokenStart, i - tokenStart)];
          inToken := false;
        }
      } else if !inToken {
        tokenStart := i;
        inToken := true;
      }
    }
    if inToken {
      spans := spans + [TokenSpan(tokenStart, |text| - tokenStart)];
    }
  }

  method TokenizeInto(text: string) returns (out: seq<string>)
    ensures out == TokensOf(text)
  {
    out := [];
    SpansAreTokens(text);
    var tokenStart, inToken := 0, false;
    for i := 0 to |text|
      invariant SpansFit(text, ClosedSpans(text, i))
      invariant out == Slices(text, ClosedSpans(text, i))
      invariant inToken <==> RunStart(text, i) < i
      invariant inToken ==> tokenStart == RunStart(text, i)
    {
      if IsSeparator(text[i]) {
        if inToken {
          out := out + [text[tokenStart..i]];
          inToken := false;
        }
      } else if !inToken {
        tokenStart := i;
        inToken := true;
      }
    }
    assert inToken <==> RunStart(text, |text|) < |text|;
    if inToken {
      out := out + [text[tokenStart..]];
      assert Slice(text, TokenSpan(tokenStart, |text| - tokenStart)) == text[tokenStart..];
    }
    hide RunStart, ClosedSpans;
    assert out == Slices(text, Spans(text));
  }

  // ----- The spans are exactly the tokens, in order -----

  lemma {:induction false} ClosedSpansAreTokens(text: string, i: nat)
    requires i <= |text|
    ensures forall s :: s in ClosedSpans(text, i) <==> IsToken(text, s) && s.offset + s.length < i
    ensures forall a, b :: 0 <= a < b < |ClosedSpans(text, i)| ==>
      ClosedSpans(text, i)[a].offset + ClosedSpans(text, i)[a].length < ClosedSpans(text, i)[b].offset
  {
    if i > 0 {
      ClosedSpansAreTokens(text, i - 1);
      var start := RunStart(text, i - 1);
      forall s | IsToken(text, s) && s.offset + s.length == i - 1
        ensures IsSeparator(text[i - 1]) && s.offset == start
      {
      }
    }
  }

  lemma SpansAreTokens(text: string)
    ensures SpansFit(text, Spans(text))
    ensures forall s :: s in Spans(text) <==> IsToken(text, s)
    ensures forall a, b :: 0 <= a < b < |Spans(text)| ==>
      Spans(text)[a].offset + Spans(text)[a].length < Spans(text)[b].offset
  {
    ClosedSpansAreTokens(text, |text|);
    var start := RunStart(text, |text|);
    forall s | IsToken(text, s) && s.offset + s.length == |text|
      ensures s == TokenSpan(start, |text| - start)
    {
    }
  }

  // ----- Case folding -----

  function FoldChar(c: char): char {
    if 'A' <= c <= 'Z' then c - 'A' + 'a' else c
  }

  function CaseFold(text: string): (r: string)
    ensures |r| == |text| && forall i :: 0 <= i < |r| ==> r[i] == FoldChar(text[i])
  {
    seq(|text|, i requires 0 <= i < |text| => FoldChar(text[i]))
  }

  /** Folding maps the letters A to Z, and nothing else, to the letter at the same place from a to z. */
  lemma FoldsLetters(text: string)
    ensures forall i :: 0 <= i < |text| ==>
      var c, d := text[i], CaseFold(text)[i];
      if 'A' <= c <= 'Z' then 'a' <= d <= 'z' && d - 'a' == c - 'A' else d == c
  {
  }

  method CaseFoldAscii(text: string) returns (result: string)
    ensures result == CaseFold(text)
  {
    result := text;
    for i := 0 to |text|
      invariant |result| == |text|
      invariant result[..i] == CaseFold(text)[..i] && result[i..] == text[i..]
    {
      result := result[i := FoldChar(text[i])];
    }
  }

  /** Folding keeps every byte in place and leaves the separators alone, so the token spans of a
      name and of its folded form are the same: the cached spans serve both case modes. */
  lemma FoldKeepsSpans(text: string)
    ensures Spans(CaseFold(text)) == Spans(text)
  {
    FoldKeepsRuns(text, |text|);
    FoldKeepsClosedSpans(text, |text|);
  }

  lemma FoldKeepsSeparators(text: string, i: nat)
    requires i < |text|
    ensures IsSeparator(CaseFold(text)[i]) == IsSeparator(text[i])
  {
  }

  lemma {:induction false} FoldKeepsRuns(text: string, i: nat)
    requires i <= |text|
    ensures RunStart(CaseFold(text), i) == RunStart(text, i)
  {
    hide IsSeparator, CaseFold, FoldChar;
    if i > 0 {
      FoldKeepsSeparators(text, i - 1);
      FoldKeepsRuns(text, i - 1);
    }
  }

  lemma {:induction false} FoldKeepsClosedSpans(text: string, i: nat)
    requires i <= |text|
    ensures ClosedSpans(CaseFold(text), i) == ClosedSpans(text, i)
  {
    hide IsSeparator, CaseFold, FoldChar;
    if i > 0 {
      FoldKeepsSeparators(text, i - 1);
      FoldKeepsRuns(text, i - 1);
      FoldKeepsClosedSpans(text, i - 1);
    }
  }

  // ----- Substrings and tokens -----

  ghost predicate OccursAt(text: string, needle: string, at: nat) {
    at + |needle| <= |text| && text[at..at + |needle|] == needle
  }

  ghost predicate Contains(text: string, needle: string) {
    exists at: nat :: OccursAt(text, needle, at)
  }

  predicate HasSeparator(text: string) {
    exists i :: 0 <= i < |text| && IsSeparator(text[i])
  }

  /** The end of the run of non-separators that starts at position i. */
  function RunEnd(text: string, i: nat): (r: nat)
    requires i <= |text|
    ensures i <= r <= |text|
    ensures forall k :: i <= k < r ==> !IsSeparator(text[k])
    ensures r == |text| || IsSeparator(text[r])
    decreases |text| - i
  {
    if i == |text| || IsSeparator(text[i]) then i else RunEnd(text, i + 1)
  }

  /** Every non-empty separator-free stretch of a text lies inside one of its tokens. */
  lemma TokenAround(text: string, from: nat, to: nat) returns (s: TokenSpan)
    requires from < to <= |text|
    requires forall k :: from <= k < to ==> !IsSeparator(text[k])
    ensures s in Spans(text) && s.offset <= from && to <= s.offset + s.length <= |text|
    ensures IsToken(text, s)
  {
    var start, end := RunStart(text, to), RunEnd(text, from);
    s := TokenSpan(start, end - start);
    assert !IsSeparator(text[from]);
    SpansAreTokens(text);
  }

  /** A separator-free needle occurs in a text exactly when it occurs in one of its tokens. */
  lemma NeedleInToken(text: string, needle: string)
    requires needle != "" && !HasSeparator(needle)
    ensures Contains(text, needle) <==> exists t :: t in TokensOf(text) && Contains(t, needle)
  {
    if Contains(text, needle) {
      var at: nat :| OccursAt(text, needle, at);
      var t := TokenWithNeedle(text, needle, at);
    }
    forall t | t in TokensOf(text) && Contains(t, needle) ensures Contains(text, needle) {
      TokenOccursInText(text, t, needle);
    }
  }

  lemma TokenWithNeedle(text: string, needle: string, at: nat) returns (t: string)
    requires needle != "" && !HasSeparator(needle) && OccursAt(text, needle, at)
    ensures t in TokensOf(text) && Contains(t, needle)
  {
    forall k | at <= k < at + |needle| ensures !IsSeparator(text[k]) {
      assert text[k] == needle[k - at];
    }
    var s := TokenAround(text, at, at + |needle|);
    t := TokenOfSpan(text, s);
    SliceOfSlice(text, s.offset, s.offset + s.length, at - s.offset, at - s.offset + |needle|);
    assert OccursAt(t, needle, at - s.offset);
  }

  lemma TokenOfSpan(text: string, s: TokenSpan) returns (t: string)
    requires s in Spans(text)
    ensures s.offset + s.length <= |text|
    ensures t in TokensOf(text) && t == text[s.offset..s.offset + s.length]
  {
    var i :| 0 <= i < |Spans(text)| && Spans(text)[i] == s;
    t := TokensOf(text)[i];
  }

  lemma SpanOfToken(text: string, t: string) returns (s: TokenSpan)
    requires t in TokensOf(text)
    ensures s in Spans(text) && IsToken(text, s) && t == text[s.offset..s.offset + s.length]
  {
    SpansAreTokens(text);
    var i :| 0 <= i < |TokensOf(text)| && TokensOf(text)[i] == t;
    s := Spans(text)[i];
  }

  lemma TokenOccursInText(text: string, t: string, needle: string)
    requires t in TokensOf(text) && Contains(t, needle)
    ensures Contains(text, needle)
  {
    var s := SpanOfToken(text, t);
    var at: nat :| OccursAt(t, needle, at);
    SliceOfSlice(text, s.offset, s.offset + s.length, at, at + |needle|);
    assert OccursAt(text, needle, s.offset + at);
  }

  /** src/core/search/TokenMatcher.cpp:42-51. */
  ghost predicate MatchesAllTokens(queryTokens: seq<string>, nameTokens: seq<string>) {
    forall q :: q in queryTokens ==> exists t :: t in nameTokens && Contains(t, q)
  }

  /** Typing on only extends the last token or starts a new one: each token of a prefix of a text
      is a prefix of one of the text's tokens. */
  lemma PrefixTokens(text: string, n: nat, q: string) returns (t: string)
    requires n <= |text| && q in TokensOf(text[..n])
    ensures t in TokensOf(text) && q <= t
  {
    var s := SpanOfToken(text[..n], q);
    hide TokensOf, Spans;
    forall k | s.offset <= k < s.offset + s.length ensures !IsSeparator(text[k]) {
      assert text[k] == text[..n][k];
    }
    var u := TokenAround(text, s.offset, s.offset + s.length);
    assert u.offset == s.offset by {
      assert s.offset > 0 ==> IsSeparator(text[s.offset - 1]);
    }
    t := TokenOfSpan(text, u);
    SliceOfSlice(text, u.offset, u.offset + u.length, s.offset - u.offset, s.offset - u.offset + s.length);
    SliceOfSlice(text, 0, n, s.offset, s.offset + s.length);
    assert t[..s.length] == q;
  }
}
