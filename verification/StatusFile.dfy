/** The status file of src/core/indexer/StatusFile.cpp: the text the helper writes, the parser that
    must reject torn reads, and their round trip. */
module StatusFile {
  import opened Common

  datatype IndexerState = Idle | Scanning | LoadingIndex | WatchingForChanges | Error

  datatype Status = Status(
    state: IndexerState, message: string, filesIndexed: u64, locations: seq<string>,
    skippedPaths: seq<string>, indexAgeSeconds: u64)

  // ----- Escaping -----

  function EscapeChar(c: char): string {
    if c == '\\' then "\\\\" else if c == '\n' then "\\n" else [c]
  }

  function Escaped(s: string): string {
    if s == "" then "" else EscapeChar(s[0]) + Escaped(s[1..])
  }

  function Unescaped(s: string): string {
    if s == "" then ""
    else if s[0] == '\\' && |s| > 1 then [if s[1] == 'n' then '\n' else s[1]] + Unescaped(s[2..])
    else [s[0]] + Unescaped(s[1..])
  }

  method Escape(value: string) returns (out: string)
    ensures out == Escaped(value)
    ensures '\n' !in out && Unescaped(out) == value
  {
    out := "";
    for i := 0 to |value|
      invariant out + Escaped(value[i..]) == Escaped(value)
    {
      assert value[i..][1..] == value[i + 1..];
      var rest := Escaped(value[i + 1..]);
      assert out + (EscapeChar(value[i]) + rest) == (out + EscapeChar(value[i])) + rest;
      out := out + EscapeChar(value[i]);
    }
    UnescapeEscape(value);
  }

  method Unescape(escaped: string) returns (out: string)
    ensures out == Unescaped(escaped)
  {
    out := "";
    var i := 0;
    while i < |escaped|
      invariant i <= |escaped| && out + Unescaped(escaped[i..]) == Unescaped(escaped)
    {
      var c := escaped[i];
      var rest := escaped[i..];
      if c == '\\' && i + 1 < |escaped| {
        assert rest[1] == escaped[i + 1] && rest[2..] == escaped[i + 2..];
        i := i + 1;
        c := if escaped[i] == 'n' then '\n' else escaped[i];
      } else {
        assert rest[1..] == escaped[i + 1..];
      }
      assert Unescaped(rest) == [c] + Unescaped(escaped[i + 1..]);
      assert out + ([c] + Unescaped(escaped[i + 1..])) == (out + [c]) + Unescaped(escaped[i + 1..]);
      out := out + [c];
      i := i + 1;
    }
  }

  lemma {:induction false} UnescapeEscape(s: string)
    ensures Unescaped(Escaped(s)) == s && '\n' !in Escaped(s)
  {
    if s != "" {
      UnescapeEscape(s[1..]);
      var c, rest := s[0], Escaped(s[1..]);
      assert (EscapeChar(c) + rest)[|EscapeChar(c)|..] == rest;
      assert Unescaped(EscapeChar(c) + rest) == [c] + Unescaped(rest);
    }
  }

  // ----- Decimal numbers -----

  predicate IsDigit(c: char) {
    '0' <= c <= '9'
  }

  function DigitOf(n: nat): (c: char)
    requires n < 10
    ensures IsDigit(c) && ValueOf(c) == n
  {
    (('0' as int) + n) as char
  }

  function ValueOf(c: char): nat
    requires IsDigit(c)
  {
    c as int - '0' as int
  }

  /** How an output stream prints an unsigned number. */
  function Decimal(n: nat): (s: string)
    ensures |s| > 0 && forall i :: 0 <= i < |s| ==> IsDigit(s[i])
  {
    if n < 10 then [DigitOf(n)] else Decimal(n / 10) + [DigitOf(n % 10)]
  }

  function DigitsValue(s: string): nat
    requires forall i :: 0 <= i < |s| ==> IsDigit(s[i])
  {
    if s == "" then 0 else DigitsValue(s[..|s| - 1]) * 10 + ValueOf(s[|s| - 1])
  }

  /** std::from_chars on the whole text: digits only, at least one, and within 64 bits. */
  function Uint64Of(text: string): Option<u64> {
    if text != "" && (forall i :: 0 <= i < |text| ==> IsDigit(text[i])) && DigitsValue(text) < TWO_64
    then Some(DigitsValue(text)) else None
  }

  lemma {:induction false} DecimalValue(n: nat)
    ensures DigitsValue(Decimal(n)) == n
  {
    if n >= 10 {
      DecimalValue(n / 10);
      assert Decimal(n)[..|Decimal(n)| - 1] == Decimal(n / 10);
    } else {
      assert Decimal(n)[..0] == "";
      assert DigitsValue("") == 0;
    }
  }

  /** Printing and parsing: exactly the 64-bit numbers come back. */
  lemma NumberRoundTrip(n: nat)
    ensures Uint64Of(Decimal(n)) == if n < TWO_64 then Some(n) else None
  {
    DecimalValue(n);
  }

  method ParseUint64(text: string) returns (value: Option<u64>)
    ensures value == Uint64Of(text)
  {
    if text == "" {
      return None;
    }
    var n: nat := 0;
    for i := 0 to |text|
      invariant forall k :: 0 <= k < i ==> IsDigit(text[k])
      invariant n == DigitsValue(text[..i])
      invariant n < TWO_64
    {
      if !IsDigit(text[i]) {
        return None;
      }
      assert text[..i + 1][..i] == text[..i];
      n := n * 10 + ValueOf(text[i]);
      if n >= TWO_64 {
        TooLarge(text, i + 1);
        return None;
      }
    }
    assert text[..|text|] == text;
    return Some(n);
  }

  lemma TooLarge(text: string, i: nat)
    requires i <= |text| && (forall k :: 0 <= k < i ==> IsDigit(text[k])) && DigitsValue(text[..i]) >= TWO_64
    ensures Uint64Of(text) == None
  {
    if forall k :: 0 <= k < |text| ==> IsDigit(text[k]) {
      ValueGrows(text, i);
    }
  }

  lemma {:induction false} ValueGrows(text: string, i: nat)
    requires i <= |text| && forall k :: 0 <= k < |text| ==> IsDigit(text[k])
    ensures DigitsValue(text[..i]) <= DigitsValue(text)
  {
    if i < |text| {
      var but := text[..|text| - 1];
      ValueGrows(but, i);
      assert but[..i] == text[..i];
    } else {
      assert text[..i] == text;
    }
  }

  // ----- Lines -----

  function JoinLines(lines: seq<string>): string {
    if lines == [] then "" else lines[0] + "\n" + JoinLines(lines[1..])
  }

  function FirstNewline(text: string): (i: nat)
    ensures i <= |text|
  {
    if text == "" || text[0] == '\n' then 0 else 1 + FirstNewline(text[1..])
  }

  lemma {:induction false} FirstNewlineIs(text: string, i: nat)
    requires i <= |text| && (i < |text| ==> text[i] == '\n')
    requires forall k :: 0 <= k < i ==> text[k] != '\n'
    ensures FirstNewline(text) == i
  {
    if i > 0 {
      FirstNewlineIs(text[1..], i - 1);
    }
  }

  /** The lines of a text; None when something follows the last newline. */
  function LinesOf(text: string): Option<seq<string>>
    decreases |text|
  {
    if text == "" then Some([])
    else
      var i := FirstNewline(text);
      if i == |text| then None
      else
        var rest := LinesOf(text[i + 1..]);
        if rest.None? then None else Some([text[..i]] + rest.value)
  }

  method SplitLines(text: string) returns (lines: Option<seq<string>>)
    ensures lines == LinesOf(text)
  {
    var done: seq<string> := [];
    var start := 0;
    assert text[0..] == text && (LinesOf(text).Some? ==> [] + LinesOf(text).value == LinesOf(text).value);
    while start < |text|
      invariant start <= |text|
      invariant LinesOf(text) == Prepended(done, LinesOf(text[start..]))
      decreases |text| - start
    {
      var rest := text[start..];
      var i := FindNewline(rest);
      if i == |rest| {
        return None;
      }
      assert rest[i + 1..] == text[start + i + 1..];
      PrependMore(done, rest[..i], LinesOf(rest[i + 1..]));
      done := done + [rest[..i]];
      start := start + i + 1;
    }
    assert text[start..] == "" && done + [] == done;
    return Some(done);
  }

  method FindNewline(text: string) returns (i: nat)
    ensures i == FirstNewline(text)
  {
    i := 0;
    while i < |text| && text[i] != '\n'
      invariant i <= |text| && FirstNewline(text) == i + FirstNewline(text[i..])
    {
      assert text[i..][1..] == text[i + 1..];
      i := i + 1;
    }
  }

  function Prepended(done: seq<string>, rest: Option<seq<string>>): Option<seq<string>> {
    if rest.None? then None else Some(done + rest.value)
  }

  lemma PrependMore(done: seq<string>, line: string, rest: Option<seq<string>>)
    ensures Prepended(done, Prepended([line], rest)) == Prepended(done + [line], rest)
  {
    if rest.Some? {
      assert done + ([line] + rest.value) == (done + [line]) + rest.value;
    }
  }

  predicate OneLineEach(lines: seq<string>) {
    forall i :: 0 <= i < |lines| ==> '\n' !in lines[i]
  }

  lemma FirstNewlineAt(line: string, rest: string)
    requires '\n' !in line
    ensures FirstNewline(line + "\n" + rest) == |line|
  {
    var text := line + "\n" + rest;
    assert forall k :: 0 <= k < |line| ==> text[k] == line[k];
    FirstNewlineIs(text, |line|);
  }

  lemma {:induction false} SplitJoined(lines: seq<string>)
    requires OneLineEach(lines)
    ensures LinesOf(JoinLines(lines)) == Some(lines)
    decreases |lines|
  {
    if lines != [] {
      var line, rest := lines[0], JoinLines(lines[1..]);
      SplitJoined(lines[1..]);
      FirstNewlineAt(line, rest);
      var text := line + "\n" + rest;
      assert JoinLines(lines) == text && text != "" && |line| < |text|;
      assert text[|line| + 1..] == rest && text[..|line|] == line;
      assert [line] + lines[1..] == lines;
    }
  }

  /** A prefix of a text of lines that still has lines of its own has the first few of them. */
  lemma {:induction false} SplitPrefix(lines: seq<string>, text: string)
    requires OneLineEach(lines) && text <= JoinLines(lines)
    ensures LinesOf(text).Some? ==> LinesOf(text).value <= lines
    ensures LinesOf(text) == Some(lines) ==> text == JoinLines(lines)
    decreases |lines|
  {
    if lines != [] && text != "" {
      var line, rest := lines[0], JoinLines(lines[1..]);
      var whole := line + "\n" + rest;
      if |text| <= |line| {
        assert text == line[..|text|];
        NoNewline(text, line);
      } else {
        var tail := text[|line| + 1..];
        assert text == line + "\n" + tail by {
          assert text == whole[..|text|];
        }
        assert tail <= rest by {
          assert rest == whole[|line| + 1..];
        }
        FirstNewlineAt(line, tail);
        SplitPrefix(lines[1..], tail);
        assert text[..|line|] == line;
        assert lines == [line] + lines[1..];
      }
    }
  }

  lemma NoNewline(text: string, line: string)
    requires text <= line && '\n' !in line
    ensures FirstNewline(text) == |text|
  {
    assert forall k :: 0 <= k < |text| ==> text[k] == line[k];
    FirstNewlineIs(text, |text|);
  }

  // ----- The record -----

  function StateName(state: IndexerState): string {
    match state
    case Idle => "Idle"
    case Scanning => "Scanning"
    case LoadingIndex => "LoadingIndex"
    case WatchingForChanges => "WatchingForChanges"
    case Error => "Error"
  }

  function ParseStateName(name: string): Option<IndexerState> {
    if name == "Idle" then Some(Idle)
    else if name == "Scanning" then Some(Scanning)
    else if name == "LoadingIndex" then Some(LoadingIndex)
    else if name == "WatchingForChanges" then Some(WatchingForChanges)
    else if name == "Error" then Some(Error)
    else None
  }

  lemma StateNameRoundTrip(state: IndexerState)
    ensures ParseStateName(StateName(state)) == Some(state) && '\n' !in StateName(state)
  {
    assert |StateName(Idle)| == 4 && |StateName(Scanning)| == 8 && |StateName(LoadingIndex)| == 12;
    assert |StateName(WatchingForChanges)| == 18 && |StateName(Error)| == 5;
  }

  function Labelled(key: string, value: string): string {
    key + "=" + value
  }

  function LabelEach(key: string, values: seq<string>): (lines: seq<string>)
    ensures |lines| == |values| && forall i :: 0 <= i < |values| ==> lines[i] == Labelled(key, Escaped(values[i]))
  {
    seq(|values|, i requires 0 <= i < |values| => Labelled(key, Escaped(values[i])))
  }

  /** The lines of a status, in their fixed order. */
  function StatusLines(s: Status): seq<string> {
    [Labelled("State", StateName(s.state)), Labelled("Message", Escaped(s.message)),
     Labelled("FilesIndexed", Decimal(s.filesIndexed)), Labelled("IndexAgeSeconds", Decimal(s.indexAgeSeconds)),
     Labelled("LocationsCount", Decimal(|s.locations|))]
    + LabelEach("Location", s.locations)
    + [Labelled("SkippedCount", Decimal(|s.skippedPaths|))]
    + LabelEach("Skipped", s.skippedPaths)
  }

  function Serialized(s: Status): string {
    JoinLines(StatusLines(s))
  }

  // ----- One status, written out -----

  const EXAMPLE := Status(Scanning, "a\\b\n", 12, ["/home"], [], 7)

  lemma ExampleLines()
    ensures StatusLines(EXAMPLE) ==
      ["State=Scanning", "Message=a\\\\b\\n", "FilesIndexed=12", "IndexAgeSeconds=7", "LocationsCount=1",
       "Location=/home", "SkippedCount=0"]
  {
    ExampleTexts();
    hide Escaped, Decimal;
    assert Labelled("Location", "/home") == "Location=/home" && Labelled("SkippedCount", "0") == "SkippedCount=0";
    assert Labelled("State", "Scanning") == "State=Scanning";
    assert Labelled("Message", "a\\\\b\\n") == "Message=a\\\\b\\n";
    assert Labelled("FilesIndexed", "12") == "FilesIndexed=12" && Labelled("LocationsCount", "1") == "LocationsCount=1";
    assert Labelled("IndexAgeSeconds", "7") == "IndexAgeSeconds=7";
    hide Labelled;
    var located, skipped := LabelEach("Location", ["/home"]), LabelEach("Skipped", []);
    assert located[0] == Labelled("Location", Escaped(["/home"][0]));
    assert located == ["Location=/home"] && skipped == [];
  }

  lemma ExampleTexts()
    ensures Escaped("a\\b\n") == "a\\\\b\\n" && Escaped("/home") == "/home"
    ensures Decimal(12) == "12" && Decimal(7) == "7" && Decimal(1) == "1" && Decimal(0) == "0"
  {
    EscapedOne("/home");
    EscapedOne("home");
    EscapedOne("ome");
    EscapedOne("me");
    EscapedOne("e");
    EscapedOne("a\\b\n");
    EscapedOne("\\b\n");
    EscapedOne("b\n");
    EscapedOne("\n");
    assert Decimal(12) == Decimal(1) + [DigitOf(2)];
    hide Escaped;
    assert Escaped("e") == "e" && Escaped("me") == "me" && Escaped("ome") == "ome" && Escaped("home") == "home";
    assert Escaped("\n") == "\\n" && Escaped("b\n") == "b\\n" && Escaped("\\b\n") == "\\\\b\\n";
  }

  lemma EscapedOne(s: string)
    requires s != ""
    ensures Escaped(s) == EscapeChar(s[0]) + Escaped(s[1..]) && Escaped("") == ""
  {
  }

  lemma JoinedBefore(line: string, rest: seq<string>, text: string)
    requires JoinLines(rest) == text
    ensures JoinLines([line] + rest) == line + "\n" + text
  {
    assert ([line] + rest)[1..] == rest;
  }

  /** The text of one status: the keys, their order, the escapes and the line ends. */
  lemma ExampleText()
    ensures Serialized(EXAMPLE) ==
      "State=Scanning\n" + ("Message=a\\\\b\\n\n" + ("FilesIndexed=12\n" + ("IndexAgeSeconds=7\n" +
        ("LocationsCount=1\n" + ("Location=/home\n" + "SkippedCount=0\n")))))
  {
    ExampleLines();
    hide StatusLines, JoinLines;
    NoLines();
    var l6, t6 := ["SkippedCount=0"] + [], "SkippedCount=0\n";
    assert "SkippedCount=0" + "\n" == "SkippedCount=0\n";
    JoinedBefore("SkippedCount=0", [], "");
    assert "SkippedCount=0\n" + "" == t6;
    var l5, t5 := ["Location=/home"] + l6, "Location=/home\n" + t6;
    assert "Location=/home" + "\n" == "Location=/home\n";
    JoinedBefore("Location=/home", l6, t6);
    var l4, t4 := ["LocationsCount=1"] + l5, "LocationsCount=1\n" + t5;
    assert "LocationsCount=1" + "\n" == "LocationsCount=1\n";
    JoinedBefore("LocationsCount=1", l5, t5);
    var l3, t3 := ["IndexAgeSeconds=7"] + l4, "IndexAgeSeconds=7\n" + t4;
    assert "IndexAgeSeconds=7" + "\n" == "IndexAgeSeconds=7\n";
    JoinedBefore("IndexAgeSeconds=7", l4, t4);
    var l2, t2 := ["FilesIndexed=12"] + l3, "FilesIndexed=12\n" + t3;
    assert "FilesIndexed=12" + "\n" == "FilesIndexed=12\n";
    JoinedBefore("FilesIndexed=12", l3, t3);
    var l1, t1 := ["Message=a\\\\b\\n"] + l2, "Message=a\\\\b\\n\n" + t2;
    assert "Message=a\\\\b\\n" + "\n" == "Message=a\\\\b\\n\n";
    JoinedBefore("Message=a\\\\b\\n", l2, t2);
    var l0, t0 := ["State=Scanning"] + l1, "State=Scanning\n" + t1;
    assert "State=Scanning" + "\n" == "State=Scanning\n";
    JoinedBefore("State=Scanning", l1, t1);
    assert StatusLines(EXAMPLE) == l0;
  }

  lemma NoLines()
    ensures JoinLines([]) == ""
  {
  }

  lemma {:induction false} JoinAppend(a: seq<string>, b: seq<string>)
    ensures JoinLines(a + b) == JoinLines(a) + JoinLines(b)
  {
    if a == [] {
      assert a + b == b;
    } else {
      JoinAppend(a[1..], b);
      assert (a + b)[1..] == a[1..] + b;
    }
  }

  lemma JoinOne(a: seq<string>, line: string)
    ensures JoinLines(a + [line]) == JoinLines(a) + line + "\n"
  {
    JoinAppend(a, [line]);
    assert JoinLines([line]) == line + "\n" + JoinLines([line][1..]);
  }

  method SerializeStatus(status: Status) returns (out: string)
    ensures out == Serialized(status)
  {
    hide JoinLines, Escaped, Decimal;
    var message := Escape(status.message);
    ghost var lines: seq<string> := [];
    EmptyJoin();
    out := "";
    out, lines := AppendLine(out, lines, "State", StateName(status.state));
    out, lines := AppendLine(out, lines, "Message", message);
    out, lines := AppendLine(out, lines, "FilesIndexed", Decimal(status.filesIndexed));
    out, lines := AppendLine(out, lines, "IndexAgeSeconds", Decimal(status.indexAgeSeconds));
    out, lines := AppendLine(out, lines, "LocationsCount", Decimal(|status.locations|));
    out, lines := AppendAll(out, lines, "Location", status.locations);
    out, lines := AppendLine(out, lines, "SkippedCount", Decimal(|status.skippedPaths|));
    out, lines := AppendAll(out, lines, "Skipped", status.skippedPaths);
    assert lines == StatusLines(status);
  }

  lemma EmptyJoin()
    ensures JoinLines([]) == ""
  {
  }

  method AppendLine(start: string, ghost before: seq<string>, key: string, value: string)
    returns (out: string, ghost lines: seq<string>)
    requires start == JoinLines(before)
    ensures lines == before + [Labelled(key, value)] && out == JoinLines(lines)
  {
    JoinOne(before, Labelled(key, value));
    lines := before + [Labelled(key, value)];
    out := start + Labelled(key, value) + "\n";
  }

  method AppendAll(start: string, ghost before: seq<string>, key: string, values: seq<string>)
    returns (out: string, ghost lines: seq<string>)
    requires start == JoinLines(before)
    ensures lines == before + LabelEach(key, values) && out == JoinLines(lines)
  {
    hide JoinLines, Escaped;
    out, lines := start, before;
    for i := 0 to |values|
      invariant lines == before + LabelEach(key, values)[..i] && out == JoinLines(lines)
    {
      var value := Escape(values[i]);
      out, lines := AppendLine(out, lines, key, value);
    }
  }

  // ----- The parser -----

  function FieldOf(lines: seq<string>, index: nat, key: string): Option<string> {
    if index >= |lines| then None
    else
      var line := lines[index];
      if |line| < |key| + 1 || line[..|key|] != key || line[|key|] != '=' then None
      else Some(line[|key| + 1..])
  }

  function NumberOf(lines: seq<string>, index: nat, key: string): Option<u64> {
    var field := FieldOf(lines, index, key);
    if field.None? then None else Uint64Of(field.value)
  }

  /** n consecutive fields with one key, unescaped. */
  function TextsOf(lines: seq<string>, from: nat, key: string, n: nat): Option<seq<string>>
    decreases n
  {
    if n == 0 then Some([])
    else
      var rest, last := TextsOf(lines, from, key, n - 1), FieldOf(lines, from + n - 1, key);
      if rest.None? || last.None? then None else Some(rest.value + [Unescaped(last.value)])
  }

  function RecordOf(lines: seq<string>): Option<Status> {
    var stateField, message := FieldOf(lines, 0, "State"), FieldOf(lines, 1, "Message");
    var files, age := NumberOf(lines, 2, "FilesIndexed"), NumberOf(lines, 3, "IndexAgeSeconds");
    var locCount := NumberOf(lines, 4, "LocationsCount");
    if stateField.None? || message.None? || files.None? || age.None? || locCount.None? then None
    else
      var state := ParseStateName(stateField.value);
      var locations := TextsOf(lines, 5, "Location", locCount.value);
      var skipCount := NumberOf(lines, 5 + locCount.value, "SkippedCount");
      if state.None? || locations.None? || skipCount.None? then None
      else
        var skipped := TextsOf(lines, 6 + locCount.value, "Skipped", skipCount.value);
        if skipped.None? then None
        else Some(Status(state.value, Unescaped(message.value), files.value, locations.value, skipped.value, age.value))
  }

  function Parsed(text: string): Option<Status> {
    var lines := LinesOf(text);
    if lines.None? then None else RecordOf(lines.value)
  }

  method TakeField(lines: seq<string>, index: nat, key: string) returns (field: Option<string>)
    ensures field == FieldOf(lines, index, key)
  {
    if index >= |lines| {
      return None;
    }
    var line := lines[index];
    if |line| < |key| + 1 || line[..|key|] != key || line[|key|] != '=' {
      return None;
    }
    return Some(line[|key| + 1..]);
  }

  method TakeNumber(lines: seq<string>, index: nat, key: string) returns (number: Option<u64>)
    ensures number == NumberOf(lines, index, key)
  {
    var field := TakeField(lines, index, key);
    if field.None? {
      return None;
    }
    number := ParseUint64(field.value);
  }

  method TakeTexts(lines: seq<string>, from: nat, key: string, n: nat) returns (texts: Option<seq<string>>)
    ensures texts == TextsOf(lines, from, key, n)
  {
    var done: seq<string> := [];
    for i := 0 to n
      invariant TextsOf(lines, from, key, i) == Some(done)
    {
      var field := TakeField(lines, from + i, key);
      if field.None? {
        NoMoreTexts(lines, from, key, i + 1, n);
        return None;
      }
      var value := Unescape(field.value);
      done := done + [value];
    }
    return Some(done);
  }

  lemma {:induction false} NoMoreTexts(lines: seq<string>, from: nat, key: string, i: nat, n: nat)
    requires i <= n && TextsOf(lines, from, key, i) == None
    ensures TextsOf(lines, from, key, n) == None
    decreases n
  {
    if i < n {
      NoMoreTexts(lines, from, key, i, n - 1);
    }
  }

  method ParseStatus(text: string) returns (status: Option<Status>)
    ensures status == Parsed(text)
  {
    hide RecordOf, LinesOf;
    var lines := SplitLines(text);
    if lines.None? {
      return None;
    }
    status := TakeRecord(lines.value);
  }

  /** The fields in order, giving up at the first one that is missing or wrong. */
  method TakeRecord(lines: seq<string>) returns (status: Option<Status>)
    ensures status == RecordOf(lines)
  {
    hide FieldOf, NumberOf, TextsOf, Unescaped, ParseStateName;
    var stateField := TakeField(lines, 0, "State");
    if stateField.None? {
      return None;
    }
    var state := ParseStateName(stateField.value);
    if state.None? {
      return None;
    }
    var messageField := TakeField(lines, 1, "Message");
    if messageField.None? {
      return None;
    }
    var message := Unescape(messageField.value);
    var files := TakeNumber(lines, 2, "FilesIndexed");
    if files.None? {
      return None;
    }
    var age := TakeNumber(lines, 3, "IndexAgeSeconds");
    if age.None? {
      return None;
    }
    var locCount := TakeNumber(lines, 4, "LocationsCount");
    if locCount.None? {
      return None;
    }
    var count: nat := locCount.value;
    var locations := TakeTexts(lines, 5, "Location", count);
    if locations.None? {
      return None;
    }
    var skipCount := TakeNumber(lines, 5 + count, "SkippedCount");
    if skipCount.None? {
      return None;
    }
    var skipped := TakeTexts(lines, 6 + count, "Skipped", skipCount.value);
    if skipped.None? {
      return None;
    }
    return Some(Status(state.value, message, files.value, locations.value, skipped.value, age.value));
  }

  // ----- The round trip -----

  /** Counts fit the 64 bits they are written in. */
  predicate Fits(s: Status) {
    |s.locations| < TWO_64 && |s.skippedPaths| < TWO_64
  }

  lemma FieldBack(lines: seq<string>, index: nat, key: string, value: string)
    requires index < |lines| && lines[index] == Labelled(key, value)
    ensures FieldOf(lines, index, key) == Some(value)
  {
    var line := lines[index];
    assert line[..|key|] == key && line[|key| + 1..] == value;
  }

  lemma NumberBack(lines: seq<string>, index: nat, key: string, n: nat)
    requires n < TWO_64 && index < |lines| && lines[index] == Labelled(key, Decimal(n))
    ensures NumberOf(lines, index, key) == Some(n)
  {
    FieldBack(lines, index, key, Decimal(n));
    NumberRoundTrip(n);
  }

  lemma {:induction false} TextsBack(lines: seq<string>, from: nat, key: string, values: seq<string>, n: nat)
    requires n <= |values| && from + n <= |lines|
    requires forall i :: 0 <= i < n ==> lines[from + i] == Labelled(key, Escaped(values[i]))
    ensures TextsOf(lines, from, key, n) == Some(values[..n])
    decreases n
  {
    hide Labelled, Escaped, FieldOf, Unescaped;
    if n > 0 {
      TextsBack(lines, from, key, values, n - 1);
      FieldBack(lines, from + n - 1, key, Escaped(values[n - 1]));
      UnescapeEscape(values[n - 1]);
      assert values[..n] == values[..n - 1] + [values[n - 1]];
    }
  }

  /** Where the parts of a concatenation are. */
  lemma PartsAt(a: seq<string>, b: seq<string>, c: string, d: seq<string>, rest: seq<string>)
    ensures var s := a + b + [c] + d + rest;
      && (forall i :: 0 <= i < |a| ==> s[i] == a[i]) && (forall i :: 0 <= i < |b| ==> s[|a| + i] == b[i])
      && s[|a| + |b|] == c && (forall i :: 0 <= i < |d| ==> s[|a| + |b| + 1 + i] == d[i])
  {
  }

  /** Where each field of a record is. */
  lemma StatusLinesAt(s: Status, more: seq<string>)
    ensures var lines, n, m := StatusLines(s) + more, |s.locations|, |s.skippedPaths|;
      && |lines| == 6 + n + m + |more|
      && lines[0] == Labelled("State", StateName(s.state)) && lines[1] == Labelled("Message", Escaped(s.message))
      && lines[2] == Labelled("FilesIndexed", Decimal(s.filesIndexed))
      && lines[3] == Labelled("IndexAgeSeconds", Decimal(s.indexAgeSeconds))
      && lines[4] == Labelled("LocationsCount", Decimal(n))
      && (forall i :: 0 <= i < n ==> lines[5 + i] == Labelled("Location", Escaped(s.locations[i])))
      && lines[5 + n] == Labelled("SkippedCount", Decimal(m))
      && (forall i :: 0 <= i < m ==> lines[6 + n + i] == Labelled("Skipped", Escaped(s.skippedPaths[i])))
  {
    hide Labelled, Escaped, Decimal, StateName;
    var head :=
      [Labelled("State", StateName(s.state)), Labelled("Message", Escaped(s.message)),
       Labelled("FilesIndexed", Decimal(s.filesIndexed)), Labelled("IndexAgeSeconds", Decimal(s.indexAgeSeconds)),
       Labelled("LocationsCount", Decimal(|s.locations|))];
    var locations, skipped := LabelEach("Location", s.locations), LabelEach("Skipped", s.skippedPaths);
    hide LabelEach;
    PartsAt(head, locations, Labelled("SkippedCount", Decimal(|s.skippedPaths|)), skipped, more);
  }

  /** The record's lines, followed by any others, give the record back. */
  lemma RecordBack(s: Status, more: seq<string>)
    requires Fits(s)
    ensures RecordOf(StatusLines(s) + more) == Some(s)
  {
    hide Labelled, Escaped, Decimal, FieldOf, NumberOf, TextsOf, Unescaped, ParseStateName, StateName, StatusLines;
    var lines, n, m := StatusLines(s) + more, |s.locations|, |s.skippedPaths|;
    StatusLinesAt(s, more);
    FieldBack(lines, 0, "State", StateName(s.state));
    StateNameRoundTrip(s.state);
    FieldBack(lines, 1, "Message", Escaped(s.message));
    UnescapeEscape(s.message);
    NumberBack(lines, 2, "FilesIndexed", s.filesIndexed);
    NumberBack(lines, 3, "IndexAgeSeconds", s.indexAgeSeconds);
    NumberBack(lines, 4, "LocationsCount", n);
    TextsBack(lines, 5, "Location", s.locations, n);
    NumberBack(lines, 5 + n, "SkippedCount", m);
    TextsBack(lines, 6 + n, "Skipped", s.skippedPaths, m);
    assert s.locations[..n] == s.locations && s.skippedPaths[..m] == s.skippedPaths;
  }

  // ----- What is accepted, exactly -----

  predicate TextLine(line: string, key: string, text: string) {
    key <= line && Unescaped(line[|key|..]) == text
  }

  predicate NumberLine(line: string, key: string, n: nat) {
    key <= line && |line| > |key| && n < TWO_64
    && (forall i :: |key| <= i < |line| ==> '0' <= line[i] <= '9') && line[|key|..] != ""
    && Uint64Of(line[|key|..]) == Some(n)
  }

  /** One line per text, from this one on. */
  predicate TextLines(lines: seq<string>, from: nat, key: string, texts: seq<string>) {
    from + |texts| <= |lines| && forall i :: 0 <= i < |texts| ==> TextLine(lines[from + i], key, texts[i])
  }

  /** The lines begin with the record of this status, key by key. */
  ghost predicate HoldsRecord(lines: seq<string>, s: Status) {
    var n, m := |s.locations|, |s.skippedPaths|;
    && |lines| >= 6 + n + m
    && lines[0] == "State=" + StateName(s.state) && TextLine(lines[1], "Message=", s.message)
    && NumberLine(lines[2], "FilesIndexed=", s.filesIndexed)
    && NumberLine(lines[3], "IndexAgeSeconds=", s.indexAgeSeconds)
    && NumberLine(lines[4], "LocationsCount=", n)
    && TextLines(lines, 5, "Location=", s.locations)
    && NumberLine(lines[5 + n], "SkippedCount=", m)
    && TextLines(lines, 6 + n, "Skipped=", s.skippedPaths)
  }

  lemma FieldIs(lines: seq<string>, index: nat, key: string)
    ensures FieldOf(lines, index, key).Some? <==> index < |lines| && key + "=" <= lines[index]
    ensures FieldOf(lines, index, key).Some? ==>
      |key| + 1 <= |lines[index]| && FieldOf(lines, index, key).value == lines[index][|key| + 1..]
  {
    if index < |lines| {
      var line := lines[index];
      if |line| >= |key| + 1 {
        assert line[..|key| + 1] == line[..|key|] + [line[|key|]];
        assert key + "=" <= line <==> line[..|key| + 1] == key + "=";
        assert line[..|key|] == line[..|key| + 1][..|key|] && line[|key|] == line[..|key| + 1][|key|];
      }
    }
  }

  lemma NumberIs(lines: seq<string>, index: nat, key: string, labelled: string, n: nat)
    requires labelled == key + "="
    ensures n < TWO_64 && NumberOf(lines, index, key) == Some(n) <==>
      index < |lines| && NumberLine(lines[index], labelled, n)
  {
    FieldIs(lines, index, key);
    hide FieldOf;
    if index < |lines| && labelled <= lines[index] {
      DigitsAre(lines[index], |labelled|);
    }
  }

  lemma DigitsAre(line: string, from: nat)
    requires from <= |line|
    ensures Uint64Of(line[from..]).Some? ==> from < |line| && forall i :: from <= i < |line| ==> '0' <= line[i] <= '9'
  {
    hide DigitsValue;
    if Uint64Of(line[from..]).Some? {
      forall i | from <= i < |line| ensures '0' <= line[i] <= '9' {
        assert line[i] == line[from..][i - from];
      }
    }
  }

  lemma {:induction false} TextsAre(
    lines: seq<string>, from: nat, key: string, labelled: string, texts: seq<string>, n: nat)
    requires labelled == key + "=" && n <= |texts|
    ensures TextsOf(lines, from, key, n) == Some(texts[..n]) <==>
      forall i :: 0 <= i < n ==> from + i < |lines| && TextLine(lines[from + i], labelled, texts[i])
  {
    TextsCount(lines, from, key, n);
    if n > 0 {
      TextsCount(lines, from, key, n - 1);
      TextsAre(lines, from, key, labelled, texts, n - 1);
      FieldIs(lines, from + n - 1, key);
      hide FieldOf, Unescaped;
      assert texts[..n] == texts[..n - 1] + [texts[n - 1]];
      assert texts[..n][..n - 1] == texts[..n - 1];
    }
  }

  lemma StateIs(name: string, state: IndexerState)
    ensures ParseStateName(name) == Some(state) <==> name == StateName(state)
  {
    StateNameRoundTrip(state);
  }

  /** The fields in order, as the parser and as the reader of whole lines see them. */
  lemma HeadIs(lines: seq<string>, s: Status)
    ensures FieldOf(lines, 0, "State").Some? && ParseStateName(FieldOf(lines, 0, "State").value) == Some(s.state) <==>
      |lines| > 0 && lines[0] == "State=" + StateName(s.state)
    ensures FieldOf(lines, 1, "Message").Some? && Unescaped(FieldOf(lines, 1, "Message").value) == s.message <==>
      |lines| > 1 && TextLine(lines[1], "Message=", s.message)
  {
    FieldIs(lines, 0, "State");
    FieldIs(lines, 1, "Message");
    assert "State" + "=" == "State=" && "Message" + "=" == "Message=";
    hide FieldOf, Unescaped, ParseStateName, StateName;
    if FieldOf(lines, 0, "State").Some? {
      StateIs(FieldOf(lines, 0, "State").value, s.state);
      assert lines[0] == "State=" + lines[0][6..];
    }
    if |lines| > 0 && lines[0] == "State=" + StateName(s.state) {
      assert "State=" <= lines[0] && lines[0][6..] == StateName(s.state);
      StateIs(StateName(s.state), s.state);
    }
  }

  /** Each field of the record is found where it belongs. */
  predicate FieldsFound(lines: seq<string>, s: Status) {
    var n, m := |s.locations|, |s.skippedPaths|;
    && FieldOf(lines, 0, "State").Some? && ParseStateName(FieldOf(lines, 0, "State").value) == Some(s.state)
    && FieldOf(lines, 1, "Message").Some? && Unescaped(FieldOf(lines, 1, "Message").value) == s.message
    && NumberOf(lines, 2, "FilesIndexed") == Some(s.filesIndexed)
    && NumberOf(lines, 3, "IndexAgeSeconds") == Some(s.indexAgeSeconds)
    && n < TWO_64 && NumberOf(lines, 4, "LocationsCount") == Some(n)
    && TextsOf(lines, 5, "Location", n) == Some(s.locations)
    && m < TWO_64 && NumberOf(lines, 5 + n, "SkippedCount") == Some(m)
    && TextsOf(lines, 6 + n, "Skipped", m) == Some(s.skippedPaths)
  }

  lemma RecordFields(lines: seq<string>, s: Status)
    ensures RecordOf(lines) == Some(s) <==> FieldsFound(lines, s)
  {
    hide FieldOf, NumberOf, TextsOf, Unescaped, ParseStateName;
    if RecordOf(lines) == Some(s) {
      CountsAgree(lines, s);
    }
  }

  lemma CountsAgree(lines: seq<string>, s: Status)
    requires RecordOf(lines) == Some(s)
    ensures |s.locations| < TWO_64 && NumberOf(lines, 4, "LocationsCount") == Some(|s.locations|)
    ensures |s.skippedPaths| < TWO_64 && NumberOf(lines, 5 + |s.locations|, "SkippedCount") == Some(|s.skippedPaths|)
  {
    hide FieldOf, NumberOf, Unescaped, ParseStateName, TextsOf;
    var n: nat := NumberOf(lines, 4, "LocationsCount").value;
    TextsCount(lines, 5, "Location", n);
    var m: nat := NumberOf(lines, 5 + n, "SkippedCount").value;
    TextsCount(lines, 6 + n, "Skipped", m);
  }

  lemma FieldsHeld(lines: seq<string>, s: Status)
    ensures FieldsFound(lines, s) <==> HoldsRecord(lines, s)
  {
    var n, m := |s.locations|, |s.skippedPaths|;
    HeadIs(lines, s);
    NumberIs(lines, 2, "FilesIndexed", "FilesIndexed=", s.filesIndexed);
    NumberIs(lines, 3, "IndexAgeSeconds", "IndexAgeSeconds=", s.indexAgeSeconds);
    NumberIs(lines, 4, "LocationsCount", "LocationsCount=", n);
    NumberIs(lines, 5 + n, "SkippedCount", "SkippedCount=", m);
    AllTexts(lines, 5, "Location", "Location=", s.locations);
    AllTexts(lines, 6 + n, "Skipped", "Skipped=", s.skippedPaths);
    hide FieldOf, NumberOf, TextsOf, Unescaped, ParseStateName, StateName, TextLine, TextLines, NumberLine;
    if TextLines(lines, 6 + n, "Skipped=", s.skippedPaths) {
      EnoughLines(lines, 6 + n, "Skipped=", s.skippedPaths);
    }
  }

  lemma EnoughLines(lines: seq<string>, from: nat, key: string, texts: seq<string>)
    requires TextLines(lines, from, key, texts)
    ensures from + |texts| <= |lines|
  {
  }

  lemma AllTexts(lines: seq<string>, from: nat, key: string, labelled: string, texts: seq<string>)
    requires labelled == key + "="
    ensures from <= |lines| ==>
      (TextsOf(lines, from, key, |texts|) == Some(texts) <==> TextLines(lines, from, labelled, texts))
    ensures TextLines(lines, from, labelled, texts) ==> from <= |lines|
  {
    TextsAre(lines, from, key, labelled, texts, |texts|);
    assert texts[..|texts|] == texts;
    hide TextsOf, TextLine;
    if from <= |lines| && TextsOf(lines, from, key, |texts|) == Some(texts) && texts != [] {
      assert from + (|texts| - 1) < |lines|;
    }
  }

  /** Exactly the texts whose lines begin with a record parse, and they parse to that record. */
  lemma ParsedExactly(text: string, s: Status)
    ensures Parsed(text) == Some(s) <==> LinesOf(text).Some? && HoldsRecord(LinesOf(text).value, s)
  {
    hide LinesOf, RecordOf, HoldsRecord, FieldsFound;
    if LinesOf(text).Some? {
      RecordFields(LinesOf(text).value, s);
      FieldsHeld(LinesOf(text).value, s);
    }
  }

  lemma {:induction false} FirstNewlineFound(text: string)
    ensures var i := FirstNewline(text);
      (i < |text| ==> text[i] == '\n') && forall k :: 0 <= k < i ==> text[k] != '\n'
  {
    if text != "" && text[0] != '\n' {
      FirstNewlineFound(text[1..]);
    }
  }

  /** The lines are what joins to the text again. */
  lemma {:induction false} LinesExactly(text: string)
    ensures LinesOf(text).Some? <==> text == "" || text[|text| - 1] == '\n'
    ensures LinesOf(text).Some? ==> JoinLines(LinesOf(text).value) == text && OneLineEach(LinesOf(text).value)
    decreases |text|
  {
    if text != "" {
      var i := FirstNewline(text);
      FirstNewlineFound(text);
      LinesStep(text, i);
      hide FirstNewline, LinesOf, JoinLines;
      if i < |text| {
        var line, rest := text[..i], text[i + 1..];
        LinesExactly(rest);
        if LinesOf(rest).Some? {
          JoinedBefore(line, LinesOf(rest).value, rest);
          CutAtNewline(text, i);
        }
      }
    }
  }

  lemma LinesStep(text: string, i: nat)
    requires text != "" && i == FirstNewline(text)
    ensures i == |text| ==> LinesOf(text).None?
    ensures i < |text| ==> var rest := LinesOf(text[i + 1..]);
      LinesOf(text) == if rest.None? then None else Some([text[..i]] + rest.value)
  {
  }

  lemma CutAtNewline(text: string, i: nat)
    requires i < |text| && text[i] == '\n'
    ensures text == text[..i] + "\n" + text[i + 1..]
  {
  }

  lemma {:induction false} TextsCount(lines: seq<string>, from: nat, key: string, n: nat)
    ensures TextsOf(lines, from, key, n).Some? ==> |TextsOf(lines, from, key, n).value| == n
  {
    if n > 0 {
      TextsCount(lines, from, key, n - 1);
    }
  }

  lemma {:induction false} DigitsHaveNoNewline(n: nat)
    ensures '\n' !in Decimal(n)
  {
    if n >= 10 {
      DigitsHaveNoNewline(n / 10);
    }
  }

  lemma StatusOneLineEach(s: Status)
    ensures OneLineEach(StatusLines(s))
  {
    StateNameRoundTrip(s.state);
    UnescapeEscape(s.message);
    DigitsHaveNoNewline(s.filesIndexed);
    DigitsHaveNoNewline(s.indexAgeSeconds);
    DigitsHaveNoNewline(|s.locations|);
    DigitsHaveNoNewline(|s.skippedPaths|);
    forall i | 0 <= i < |s.locations| ensures '\n' !in Escaped(s.locations[i]) {
      UnescapeEscape(s.locations[i]);
    }
    forall i | 0 <= i < |s.skippedPaths| ensures '\n' !in Escaped(s.skippedPaths[i]) {
      UnescapeEscape(s.skippedPaths[i]);
    }
    hide Escaped, Decimal, StateName;
  }

  /** Parsing a serialized status gives it back, whatever newlines and backslashes its texts hold. */
  lemma RoundTrip(s: Status)
    requires Fits(s)
    ensures Parsed(Serialized(s)) == Some(s)
  {
    hide JoinLines, StatusLines, LinesOf, RecordOf;
    StatusOneLineEach(s);
    SplitJoined(StatusLines(s));
    RecordBack(s, []);
    assert StatusLines(s) + [] == StatusLines(s);
  }

  /** Whole lines after the record are ignored. */
  lemma TrailingLinesIgnored(s: Status, more: seq<string>)
    requires Fits(s) && OneLineEach(more)
    ensures Parsed(Serialized(s) + JoinLines(more)) == Some(s)
  {
    hide JoinLines, StatusLines, LinesOf, RecordOf;
    StatusOneLineEach(s);
    JoinAppend(StatusLines(s), more);
    SplitJoined(StatusLines(s) + more);
    RecordBack(s, more);
  }

  // ----- Torn reads -----

  lemma FieldInPrefix(some: seq<string>, lines: seq<string>, index: nat, key: string)
    requires some <= lines
    ensures FieldOf(some, index, key).Some? ==> FieldOf(lines, index, key) == FieldOf(some, index, key) && index < |some|
  {
  }

  lemma {:induction false} TextsInPrefix(some: seq<string>, lines: seq<string>, from: nat, key: string, n: nat)
    requires some <= lines
    ensures TextsOf(some, from, key, n).Some? ==> n == 0 || from + n <= |some|
    decreases n
  {
    if n > 0 {
      TextsInPrefix(some, lines, from, key, n - 1);
      FieldInPrefix(some, lines, from + n - 1, key);
    }
  }

  /** A record needs every one of its lines. */
  lemma FewerLinesRejected(s: Status, some: seq<string>)
    requires Fits(s) && some <= StatusLines(s) && |some| < |StatusLines(s)|
    ensures RecordOf(some) == None
  {
    var lines, n, m := StatusLines(s), |s.locations|, |s.skippedPaths|;
    NumberBack(lines, 4, "LocationsCount", n);
    assert lines[5 + n] == Labelled("SkippedCount", Decimal(m));
    NumberBack(lines, 5 + n, "SkippedCount", m);
    assert |lines| == 6 + n + m;
    hide StatusLines, Labelled, Escaped, Decimal, TextsOf, Unescaped, ParseStateName, StateName, Uint64Of;
    FieldInPrefix(some, lines, 4, "LocationsCount");
    FieldInPrefix(some, lines, 5 + n, "SkippedCount");
    hide FieldOf;
    TextsInPrefix(some, lines, 6 + n, "Skipped", m);
  }

  /** A torn read is never mistaken for a status: every strict prefix of a serialized status is
      rejected. */
  lemma StrictPrefixRejected(s: Status, torn: string)
    requires Fits(s) && torn <= Serialized(s) && torn != Serialized(s)
    ensures Parsed(torn) == None
  {
    hide JoinLines, StatusLines, LinesOf, RecordOf;
    StatusOneLineEach(s);
    SplitPrefix(StatusLines(s), torn);
    if LinesOf(torn).Some? {
      var some := LinesOf(torn).value;
      assert |some| == |StatusLines(s)| ==> some == StatusLines(s);
      FewerLinesRejected(s, some);
    }
  }
}
