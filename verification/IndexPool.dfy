/** The flat-pool in-memory index of src/core/storage/IndexPool.cpp: parallel vectors that index
    into shared byte pools, with a cache of each name's token spans. */
module IndexPools {
  import opened Common
  import opened Tokens

  type Text = seq<byte>

  datatype FileEntry = FileEntry(name: Text, path: Text, size: u64, lastModified: u64, attributes: u32)

  datatype EntryMeta = EntryMeta(
    size: u64, lastModified: u64, pathOffset: nat, nameLowerOffset: nat, attributes: u32,
    pathLen: u32, nameLowerLen: u32, nameStart: u16, deleted: bool)

  datatype EntryView = EntryView(
    name: Text, nameLower: string, path: Text, size: u64, lastModified: u64, attributes: u32,
    spans: seq<TokenSpan>)

  /** The six vectors of an IndexPool. */
  datatype Pool = Pool(
    meta: seq<EntryMeta>, nameLowerPool: string, pathPool: Text,
    spans: seq<TokenSpan>, tokenStart: seq<u32>, tokenCount: seq<u16>)

  const EMPTY_POOL := Pool([], "", [], [], [], [])

  /** Every slice that GetEntry(i) takes is inside its pool. */
  ghost predicate InRange(p: Pool, i: nat)
    requires i < |p.meta| == |p.tokenStart| == |p.tokenCount|
  {
    var m := p.meta[i];
    && m.pathOffset + m.pathLen <= |p.pathPool| && m.nameStart <= m.pathLen
    && m.nameLowerOffset + m.nameLowerLen <= |p.nameLowerPool|
    && p.tokenStart[i] + p.tokenCount[i] <= |p.spans|
  }

  ghost predicate ValidPool(p: Pool) {
    && |p.meta| == |p.tokenStart| == |p.tokenCount|
    && forall i :: 0 <= i < |p.meta| ==> InRange(p, i)
  }

  function PathOf(m: EntryMeta, pathPool: Text): (path: Text)
    requires m.pathOffset + m.pathLen <= |pathPool|
    ensures |path| == m.pathLen
  {
    pathPool[m.pathOffset..m.pathOffset + m.pathLen]
  }

  function View(p: Pool, i: nat): EntryView
    requires ValidPool(p) && i < |p.meta|
  {
    assert InRange(p, i);
    var m := p.meta[i];
    var path := PathOf(m, p.pathPool);
    EntryView(
      path[m.nameStart..],
      p.nameLowerPool[m.nameLowerOffset..m.nameLowerOffset + m.nameLowerLen],
      path, m.size, m.lastModified, m.attributes,
      p.spans[p.tokenStart[i]..p.tokenStart[i] + p.tokenCount[i]])
  }

  /** The cached parts of a view are what its name determines. */
  ghost predicate Faithful(v: EntryView) {
    v.nameLower == CaseFold(v.name) && v.spans == Spans(v.nameLower)
  }

  /** What AddEntry and LoadFromPathPool both do for one record: append the folded name and its
      token spans, with the casts to 32- and 16-bit fields. */
  function AppendRecord(p: Pool, m: EntryMeta, nameLower: string): Pool {
    var spans := Spans(nameLower);
    Pool(
      p.meta + [m.(nameLowerOffset := |p.nameLowerPool|, nameLowerLen := |nameLower| % TWO_32)],
      p.nameLowerPool + nameLower, p.pathPool,
      p.spans + spans, p.tokenStart + [|p.spans| % TWO_32], p.tokenCount + [|spans| % TWO_16])
  }

  /** The record of a new entry, with the casts of AddEntry. */
  function NewMeta(p: Pool, e: FileEntry): EntryMeta {
    EntryMeta(e.size, e.lastModified, |p.pathPool|, 0, e.attributes, |e.path| % TWO_32, 0,
              (|e.path| - |e.name|) % TWO_16, false)
  }

  function Append(p: Pool, e: FileEntry): Pool {
    AppendRecord(p.(pathPool := p.pathPool + e.path), NewMeta(p, e), CaseFold(e.name))
  }

  /** What IFileSystemScanner hands over: the basename of a full path shorter than 4 GiB. */
  ghost predicate IsFileEntry(e: FileEntry) {
    && |e.path| < TWO_32 && |e.name| <= |e.path|
    && e.path[|e.path| - |e.name|..] == e.name
  }

  /** The entry respects the widths of the record's 16-bit fields. */
  predicate FitsFields(e: FileEntry) {
    |e.path| - |e.name| < TWO_16 && |Spans(CaseFold(e.name))| < TWO_16
  }

  function Tombstone(p: Pool, i: nat): Pool
    requires i < |p.meta|
  {
    p.(meta := p.meta[i := p.meta[i].(deleted := true)])
  }

  /** LoadFromPathPool after its first n records. */
  function Rebuilt(meta: seq<EntryMeta>, pathPool: Text, n: nat): (p: Pool)
    requires n <= |meta| && SlicesFit(meta, pathPool)
    ensures |p.meta| == |p.tokenStart| == |p.tokenCount| == n && p.pathPool == pathPool
  {
    if n == 0 then EMPTY_POOL.(pathPool := pathPool)
    else
      var m := meta[n - 1];
      AppendRecord(Rebuilt(meta, pathPool, n - 1), m, FoldedName(m, pathPool))
  }

  function FoldedName(m: EntryMeta, pathPool: Text): string
    requires m.pathOffset + m.pathLen <= |pathPool| && m.nameStart <= m.pathLen
  {
    CaseFold(PathOf(m, pathPool)[m.nameStart..])
  }

  /** What IndexSerializer::Load checks of each record. */
  ghost predicate SlicesFit(meta: seq<EntryMeta>, pathPool: Text) {
    forall i :: 0 <= i < |meta| ==>
      meta[i].pathOffset + meta[i].pathLen <= |pathPool| && meta[i].nameStart <= meta[i].pathLen
  }

  /** The first live entry with this path, if any. */
  function FirstLive(p: Pool, path: string, from: nat): (r: Option<nat>)
    requires ValidPool(p) && from <= |p.meta|
    ensures r.Some? ==> from <= r.value < |p.meta|
    decreases |p.meta| - from
  {
    if from == |p.meta| then None
    else if !p.meta[from].deleted && View(p, from).path == path then Some(from)
    else FirstLive(p, path, from + 1)
  }

  // ----- The class -----

  class IndexPool {
    var meta: seq<EntryMeta>
    var nameLowerPool: string
    var pathPool: Text
    var nameTokenSpans: seq<TokenSpan>
    var nameTokenStart: seq<u32>
    var nameTokenCount: seq<u16>

    function Rep(): Pool
      reads this
    {
      Pool(meta, nameLowerPool, pathPool, nameTokenSpans, nameTokenStart, nameTokenCount)
    }

    ghost predicate Valid()
      reads this
    {
      ValidPool(Rep())
    }

    constructor ()
      ensures Valid() && Rep() == EMPTY_POOL
    {
      meta, nameLowerPool, pathPool := [], "", [];
      nameTokenSpans, nameTokenStart, nameTokenCount := [], [], [];
    }

    method AddEntry(entry: FileEntry)
      requires Valid() && IsFileEntry(entry)
      modifies this
      ensures Valid() && Rep() == Append(old(Rep()), entry)
    {
      hide CaseFold, Spans, ValidPool;
      var size, length := |pathPool|, |entry.path| % TWO_32;
      pathPool := pathPool + entry.path;
      var nameStart := (|entry.path| - |entry.name|) % TWO_16;
      var nameLower := CaseFoldAscii(entry.name);
      var lowerOffset := |nameLowerPool|;
      nameLowerPool := nameLowerPool + nameLower;
      var spans := TokenizeToSpans(nameLower);
      nameTokenStart := nameTokenStart + [|nameTokenSpans| % TWO_32];
      nameTokenCount := nameTokenCount + [|spans| % TWO_16];
      nameTokenSpans := nameTokenSpans + spans;
      meta := meta + [EntryMeta(entry.size, entry.lastModified, size, lowerOffset, entry.attributes,
                                length, |nameLower| % TWO_32, nameStart, false)];
      AppendValid(old(Rep()), entry);
    }

    method GetEntry(index: nat) returns (view: EntryView)
      requires Valid() && index < |meta|
      ensures view == View(Rep(), index)
    {
      assert InRange(Rep(), index);
      var m := meta[index];
      var path := pathPool[m.pathOffset..m.pathOffset + m.pathLen];
      view := EntryView(path[m.nameStart..],
        nameLowerPool[m.nameLowerOffset..m.nameLowerOffset + m.nameLowerLen],
        path, m.size, m.lastModified, m.attributes,
        nameTokenSpans[nameTokenStart[index]..nameTokenStart[index] + nameTokenCount[index]]);
    }

    method MarkDeleted(index: nat)
      requires Valid() && index < |meta|
      modifies this`meta
      ensures Valid() && Rep() == Tombstone(old(Rep()), index)
    {
      meta := meta[index := meta[index].(deleted := true)];
      TombstoneValid(old(Rep()), index);
    }

    method FindByPath(path: string) returns (found: Option<nat>)
      requires Valid()
      ensures found == FirstLive(Rep(), path, 0)
    {
      for i := 0 to |meta|
        invariant FirstLive(Rep(), path, 0) == FirstLive(Rep(), path, i)
      {
        if !meta[i].deleted {
          var view := GetEntry(i);
          if view.path == path {
            return Some(i);
          }
        }
      }
      return None;
    }

    constructor LoadFromPathPool(loaded: seq<EntryMeta>, paths: Text)
      requires SlicesFit(loaded, paths)
      ensures Valid() && Rep() == Rebuilt(loaded, paths, |loaded|)
    {
      pathPool, meta, nameLowerPool := paths, loaded, "";
      nameTokenSpans, nameTokenStart, nameTokenCount := [], [], [];
      new;
      hide CaseFold, Spans, ValidPool, InRange, Rebuilt;
      RebuiltNone(loaded, paths);
      for i := 0 to |loaded|
        invariant |meta| == |loaded| && meta[i..] == loaded[i..]
        invariant Rep().(meta := meta[..i]) == Rebuilt(loaded, paths, i)
      {
        var m := meta[i];
        assert m == meta[i..][0] == loaded[i];
        var path := pathPool[m.pathOffset..m.pathOffset + m.pathLen];
        var nameLower := CaseFoldAscii(path[m.nameStart..]);
        RebuiltStep(loaded, paths, i);
        ghost var before := meta[..i];
        meta := meta[i := m.(nameLowerOffset := |nameLowerPool|, nameLowerLen := |nameLower| % TWO_32)];
        assert meta[..i + 1] == before + [meta[i]];
        nameLowerPool := nameLowerPool + nameLower;
        var spans := TokenizeToSpans(nameLower);
        nameTokenStart := nameTokenStart + [|nameTokenSpans| % TWO_32];
        nameTokenCount := nameTokenCount + [|spans| % TWO_16];
        nameTokenSpans := nameTokenSpans + spans;
      }
      assert meta[..|loaded|] == meta;
      RebuiltValid(loaded, paths, |loaded|);
    }
  }

  // ----- What the operations do to the views -----

  /** Appending keeps the pool in range and every earlier view; the new view's cached name and
      spans are those of `nameLower`, up to the 16-bit count. */
  lemma AppendRecordViews(p: Pool, m: EntryMeta, nameLower: string)
    requires ValidPool(p) && |nameLower| < TWO_32
    requires m.pathOffset + m.pathLen <= |p.pathPool| && m.nameStart <= m.pathLen
    ensures ValidPool(AppendRecord(p, m, nameLower))
    ensures forall i :: 0 <= i < |p.meta| ==> View(AppendRecord(p, m, nameLower), i) == View(p, i)
  {
    hide Spans;
    AppendRecordValid(p, m, nameLower);
    var q := AppendRecord(p, m, nameLower);
    forall i | 0 <= i < |p.meta| ensures View(q, i) == View(p, i) {
      assert InRange(p, i) && InRange(q, i);
    }
  }

  lemma AppendRecordValid(p: Pool, m: EntryMeta, nameLower: string)
    requires ValidPool(p) && |nameLower| < TWO_32
    requires m.pathOffset + m.pathLen <= |p.pathPool| && m.nameStart <= m.pathLen
    ensures ValidPool(AppendRecord(p, m, nameLower))
  {
    hide Spans;
    var q := AppendRecord(p, m, nameLower);
    forall i | 0 <= i < |q.meta| ensures InRange(q, i) {
      assert i < |p.meta| ==> InRange(p, i);
    }
  }

  lemma GrowPaths(p: Pool, path: Text)
    requires ValidPool(p)
    ensures ValidPool(p.(pathPool := p.pathPool + path))
    ensures forall i :: 0 <= i < |p.meta| ==> View(p.(pathPool := p.pathPool + path), i) == View(p, i)
  {
    var q := p.(pathPool := p.pathPool + path);
    forall i | 0 <= i < |q.meta| ensures InRange(q, i) {
      assert InRange(p, i);
    }
    forall i | 0 <= i < |p.meta| ensures View(q, i) == View(p, i) {
      assert InRange(p, i);
    }
  }

  lemma AppendValid(p: Pool, e: FileEntry)
    requires ValidPool(p) && IsFileEntry(e)
    ensures ValidPool(Append(p, e)) && |Append(p, e).meta| == |p.meta| + 1
    ensures forall i :: 0 <= i < |p.meta| ==> View(Append(p, e), i) == View(p, i)
  {
    hide CaseFold, Spans;
    GrowPaths(p, e.path);
    AppendRecordViews(p.(pathPool := p.pathPool + e.path), NewMeta(p, e), CaseFold(e.name));
  }

  lemma TombstoneValid(p: Pool, i: nat)
    requires ValidPool(p) && i < |p.meta|
    ensures ValidPool(Tombstone(p, i))
    ensures forall k :: 0 <= k < |p.meta| ==> View(Tombstone(p, i), k) == View(p, k)
  {
    var q := Tombstone(p, i);
    forall k | 0 <= k < |q.meta| ensures InRange(q, k) {
      assert InRange(p, k);
    }
    forall k | 0 <= k < |p.meta| ensures View(q, k) == View(p, k) {
      assert InRange(p, k);
    }
  }

  /** The new view of one appended record: the cache holds the folded name and the first
      (token count mod 65536) of its tokens. */
  lemma AppendedRecordView(p: Pool, m: EntryMeta, nameLower: string)
    requires ValidPool(p) && |nameLower| < TWO_32 && |p.spans| < TWO_32
    requires m.pathOffset + m.pathLen <= |p.pathPool| && m.nameStart <= m.pathLen
    ensures ValidPool(AppendRecord(p, m, nameLower))
    ensures var path := PathOf(m, p.pathPool);
      View(AppendRecord(p, m, nameLower), |p.meta|) ==
      EntryView(path[m.nameStart..], nameLower, path, m.size, m.lastModified, m.attributes,
                Spans(nameLower)[..|Spans(nameLower)| % TWO_16])
  {
    AppendRecordViews(p, m, nameLower);
    var q := AppendRecord(p, m, nameLower);
    assert InRange(q, |p.meta|);
    var spans, count := Spans(nameLower), |Spans(nameLower)| % TWO_16;
    hide Spans;
    SliceAfter(p.nameLowerPool, nameLower, |nameLower|);
    SliceAfter(p.spans, spans, count);
  }

  /** AddEntry stores path, folded name and metadata as given. The name read back is the entry's
      exactly when its offset fits 16 bits, and the cached spans are all of the name's tokens
      exactly when there are fewer than 65536 of them. */
  lemma AppendedView(p: Pool, e: FileEntry)
    requires ValidPool(p) && IsFileEntry(e) && |p.spans| < TWO_32
    ensures ValidPool(Append(p, e))
    ensures var v := View(Append(p, e), |p.meta|);
      && v.path == e.path && v.nameLower == CaseFold(e.name)
      && v.size == e.size && v.lastModified == e.lastModified && v.attributes == e.attributes
      && (v.name == e.name <==> |e.path| - |e.name| < TWO_16)
      && (v.spans == Spans(v.nameLower) <==> |Spans(v.nameLower)| < TWO_16)
      && (FitsFields(e) ==> Faithful(v))
      && (FitsFields(e) <==> v.name == e.name && v.spans == Spans(v.nameLower))
  {
    var q := p.(pathPool := p.pathPool + e.path);
    var nameLower := CaseFold(e.name);
    hide CaseFold, Spans;
    GrowPaths(p, e.path);
    var m := NewMeta(p, e);
    assert PathOf(m, q.pathPool) == e.path;
    AppendedRecordView(q, m, nameLower);
    assert |e.path[m.nameStart..]| == |e.name| <==> |e.path| - |e.name| < TWO_16;
  }

  lemma {:induction false} RebuiltValid(meta: seq<EntryMeta>, pathPool: Text, n: nat)
    requires n <= |meta| && SlicesFit(meta, pathPool)
    ensures ValidPool(Rebuilt(meta, pathPool, n))
    ensures n < |meta| ==> |FoldedName(meta[n], pathPool)| == meta[n].pathLen - meta[n].nameStart
  {
    hide CaseFold, Spans, AppendRecord;
    if n > 0 {
      RebuiltValid(meta, pathPool, n - 1);
      AppendRecordViews(Rebuilt(meta, pathPool, n - 1), meta[n - 1], FoldedName(meta[n - 1], pathPool));
    }
  }

  /** Everything View(i) reports about a record that is not in the caches. */
  ghost predicate ShowsRecord(v: EntryView, m: EntryMeta, pathPool: Text)
    requires m.pathOffset + m.pathLen <= |pathPool| && m.nameStart <= m.pathLen
  {
    && v.path == PathOf(m, pathPool) && v.name == PathOf(m, pathPool)[m.nameStart..]
    && v.size == m.size && v.lastModified == m.lastModified && v.attributes == m.attributes
  }

  /** The view shows record m; its cached name is the folded name, and its cached spans are all of
      the name's tokens exactly when there are fewer than 65536. */
  ghost predicate ShowsRebuilt(v: EntryView, m: EntryMeta, pathPool: Text)
    requires m.pathOffset + m.pathLen <= |pathPool| && m.nameStart <= m.pathLen
  {
    && ShowsRecord(v, m, pathPool) && v.nameLower == CaseFold(v.name)
    && (Faithful(v) <==> |Spans(v.nameLower)| < TWO_16)
  }

  lemma RebuiltLastView(meta: seq<EntryMeta>, pathPool: Text, n: nat)
    requires n < |meta| && SlicesFit(meta, pathPool)
    requires |Rebuilt(meta, pathPool, n + 1).spans| < TWO_32
    ensures ValidPool(Rebuilt(meta, pathPool, n + 1))
    ensures ShowsRebuilt(View(Rebuilt(meta, pathPool, n + 1), n), meta[n], pathPool)
  {
    hide Rebuilt, CaseFold, Spans, View, ValidPool, AppendRecord;
    RebuiltStep(meta, pathPool, n);
    RebuiltValid(meta, pathPool, n);
    AppendedRecordView(Rebuilt(meta, pathPool, n), meta[n], FoldedName(meta[n], pathPool));
  }

  lemma RebuiltNone(meta: seq<EntryMeta>, pathPool: Text)
    requires SlicesFit(meta, pathPool)
    ensures Rebuilt(meta, pathPool, 0) == EMPTY_POOL.(pathPool := pathPool)
  {
  }

  lemma RebuiltStep(meta: seq<EntryMeta>, pathPool: Text, n: nat)
    requires n < |meta| && SlicesFit(meta, pathPool)
    ensures Rebuilt(meta, pathPool, n + 1) ==
            AppendRecord(Rebuilt(meta, pathPool, n), meta[n], FoldedName(meta[n], pathPool))
    ensures |Rebuilt(meta, pathPool, n + 1).spans| >= |Rebuilt(meta, pathPool, n).spans|
  {
    hide FoldedName, Spans;
  }

  /** LoadFromPathPool: the rebuilt pool shows every loaded record. */
  lemma {:induction false} RebuiltViews(meta: seq<EntryMeta>, pathPool: Text, n: nat, i: nat)
    requires i < n <= |meta| && SlicesFit(meta, pathPool)
    requires |Rebuilt(meta, pathPool, n).spans| < TWO_32
    ensures ValidPool(Rebuilt(meta, pathPool, n))
    ensures ShowsRebuilt(View(Rebuilt(meta, pathPool, n), i), meta[i], pathPool)
    decreases n
  {
    if i == n - 1 {
      RebuiltLastView(meta, pathPool, i);
    } else {
      hide Rebuilt, View, ShowsRebuilt, ValidPool, AppendRecord, FoldedName;
      RebuiltStep(meta, pathPool, n - 1);
      RebuiltViews(meta, pathPool, n - 1, i);
      AppendRecordViews(Rebuilt(meta, pathPool, n - 1), meta[n - 1], FoldedName(meta[n - 1], pathPool));
    }
  }

  lemma {:induction false} RebuiltDeleted(meta: seq<EntryMeta>, pathPool: Text, n: nat, i: nat)
    requires i < n <= |meta| && SlicesFit(meta, pathPool)
    ensures Rebuilt(meta, pathPool, n).meta[i].deleted == meta[i].deleted
    decreases n
  {
    hide FoldedName, Spans;
    if i < n - 1 {
      RebuiltDeleted(meta, pathPool, n - 1, i);
    }
  }

  // ----- Every pool the program builds -----

  datatype PoolOp = Add(entry: FileEntry) | Delete(index: nat)

  /** The pool after a sequence of AddEntry and MarkDeleted calls. */
  function Built(ops: seq<PoolOp>): (p: Pool)
  {
    if |ops| == 0 then EMPTY_POOL
    else
      var before := Built(ops[..|ops| - 1]);
      match ops[|ops| - 1]
      case Add(e) => Append(before, e)
      case Delete(i) => if i < |before.meta| then Tombstone(before, i) else before
  }

  /** Calls that stay within the record's field widths, and token totals within 32 bits. */
  ghost predicate FittingOps(ops: seq<PoolOp>) {
    && |Built(ops).spans| < TWO_32
    && forall k :: 0 <= k < |ops| && ops[k].Add? ==> IsFileEntry(ops[k].entry) && FitsFields(ops[k].entry)
  }

  ghost predicate FaithfulPool(p: Pool)
    requires ValidPool(p)
  {
    forall i :: 0 <= i < |p.meta| ==> Faithful(View(p, i))
  }

  lemma FewerSpansBefore(ops: seq<PoolOp>)
    requires |ops| > 0
    ensures |Built(ops[..|ops| - 1]).spans| <= |Built(ops).spans|
  {
    hide Spans, CaseFold;
  }

  /** In every pool built within the field widths, each entry's cached folded name and token spans
      are those of its name. */
  lemma {:induction false} BuiltFaithful(ops: seq<PoolOp>)
    requires FittingOps(ops)
    ensures ValidPool(Built(ops)) && FaithfulPool(Built(ops))
    decreases |ops|
  {
    hide Faithful, View, Append, Spans, CaseFold;
    if |ops| > 0 {
      var before, last := ops[..|ops| - 1], ops[|ops| - 1];
      FewerSpansBefore(ops);
      BuiltFaithful(before);
      match last {
        case Add(e) =>
          AppendValid(Built(before), e);
          AppendedView(Built(before), e);
        case Delete(i) =>
          if i < |Built(before).meta| {
            TombstoneValid(Built(before), i);
          }
      }
    }
  }

  /** The token spans of the first n entries, as their views show them. */
  function TokenTotal(p: Pool, n: nat): nat
    requires ValidPool(p) && n <= |p.meta|
  {
    if n == 0 then 0 else TokenTotal(p, n - 1) + |View(p, n - 1).spans|
  }

  lemma {:induction false} TokenTotalFrame(p: Pool, q: Pool, n: nat)
    requires ValidPool(p) && ValidPool(q) && n <= |p.meta| && n <= |q.meta|
    requires forall i :: 0 <= i < n ==> View(q, i) == View(p, i)
    ensures TokenTotal(q, n) == TokenTotal(p, n)
  {
    hide View;
    if n > 0 {
      TokenTotalFrame(p, q, n - 1);
    }
  }

  /** In every pool built within the field widths the entries' token spans account for the whole
      span vector. */
  lemma {:induction false} BuiltTotal(ops: seq<PoolOp>)
    requires FittingOps(ops)
    ensures ValidPool(Built(ops)) && TokenTotal(Built(ops), |Built(ops).meta|) == |Built(ops).spans|
    decreases |ops|
  {
    hide Faithful, View, Append, Spans, CaseFold;
    BuiltFaithful(ops);
    if |ops| > 0 {
      var before, last := ops[..|ops| - 1], ops[|ops| - 1];
      FewerSpansBefore(ops);
      BuiltTotal(before);
      var p := Built(before);
      match last {
        case Add(e) =>
          AppendValid(p, e);
          AppendedView(p, e);
          AppendedSpans(p, e);
          TokenTotalFrame(p, Append(p, e), |p.meta|);
        case Delete(i) =>
          if i < |p.meta| {
            TombstoneValid(p, i);
            TokenTotalFrame(p, Tombstone(p, i), |p.meta|);
          }
      }
    }
  }

  lemma AppendedSpans(p: Pool, e: FileEntry)
    ensures Append(p, e).spans == p.spans + Spans(CaseFold(e.name))
  {
  }
}
