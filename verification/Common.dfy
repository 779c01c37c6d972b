/** Vocabulary shared by every component: optional values, machine integers and bytes. */
module Common {
  datatype Option<+T> = None | Some(value: T)

  const TWO_16 := 0x1_0000
  const TWO_32 := 0x1_0000_0000
  const TWO_64 := 0x1_0000_0000_0000_0000

  type u16 = n: int | 0 <= n < TWO_16
  type u32 = n: int | 0 <= n < TWO_32
  type u64 = n: int | 0 <= n < TWO_64

  /** One byte of a C++ `char` buffer, kept as a character so that text literals stay readable. */
  type byte = c: char | (c as int) < 256 witness 'a'

  type Path = string

  ghost predicate NoDuplicates<T>(s: seq<T>) {
    forall i, j :: 0 <= i < j < |s| ==> s[i] != s[j]
  }

  function Elements<T>(s: seq<T>): set<T> {
    set x | x in s
  }

  lemma SliceJoin<T>(s: seq<T>, from: nat, to: nat)
    requires from <= to <= |s|
    ensures s[..from] + s[from..to] == s[..to]
  {
  }

  lemma SliceBetween<T>(s: seq<T>, from: nat, middle: nat, to: nat)
    requires from <= middle <= to <= |s|
    ensures s[from..middle] + s[middle..to] == s[from..to]
  {
  }

  lemma SliceAfter<T>(s: seq<T>, t: seq<T>, n: nat)
    requires n <= |t|
    ensures (s + t)[|s|..|s| + n] == t[..n]
  {
    forall k | 0 <= k < n ensures (s + t)[|s|..|s| + n][k] == t[..n][k] {
      assert (s + t)[|s| + k] == t[k];
    }
  }

  lemma SliceOfSlice<T>(s: seq<T>, from: nat, to: nat, lo: nat, hi: nat)
    requires from <= to <= |s| && lo <= hi <= to - from
    ensures s[from..to][lo..hi] == s[from + lo..from + hi]
  {
    var part := s[from..to];
    assert |part[lo..hi]| == |s[from + lo..from + hi]|;
    forall k | 0 <= k < hi - lo ensures part[lo..hi][k] == s[from + lo..from + hi][k] {
      assert part[lo + k] == s[from + lo + k];
    }
  }

  /** A slice that is a concatenation, cut at the joint. */
  lemma SliceParts<T>(s: seq<T>, from: nat, left: seq<T>, right: seq<T>)
    requires from + |left| + |right| <= |s| && s[from..from + |left| + |right|] == left + right
    ensures s[from..from + |left|] == left && s[from + |left|..from + |left| + |right|] == right
  {
    SliceOfSlice(s, from, from + |left| + |right|, 0, |left|);
    SliceOfSlice(s, from, from + |left| + |right|, |left|, |left| + |right|);
  }
}
