/** The chunked substring scan of src/core/search/SimdSearchAvx2.cpp (chunk width 32) and
    src/core/search/SimdSearchSse42.cpp (chunk width 16). */
module SubstringScan {
  import opened Common
  import opened Tokens
  import opened Words

  // ----- The intrinsics -----

  /** Bit j of a mask. */
  predicate Bit(mask: bv32, j: nat) {
    if j == 0 then Odd(mask) else Bit(Half(mask), j - 1)
  }

  function Push(rest: bv32, bit: bool): bv32 {
    (rest << 1) | (if bit then 1 else 0)
  }

  function ClearLowest(mask: bv32): bv32 {
    mask & (mask - 1)
  }

  /** A byte-wise comparison with `first` followed by movemask, over `width` bytes. */
  function MoveMask(haystack: string, start: nat, width: nat, first: char): bv32
    requires start + width <= |haystack|
    decreases width
  {
    if width == 0 then 0
    else Push(MoveMask(haystack, start + 1, width - 1, first), haystack[start] == first)
  }

  /** __builtin_ctz. */
  function Ctz(mask: bv32): (r: nat)
    requires mask != 0
    ensures Bit(mask, r) && forall k :: 0 <= k < r ==> !Bit(mask, k)
    decreases mask
  {
    MaskStep(mask);
    if Odd(mask) then 0 else 1 + Ctz(Half(mask))
  }

  lemma MaskStep(mask: bv32)
    requires mask != 0
    ensures Half(mask) < mask
    ensures !Odd(mask) ==> Half(mask) != 0
  {
  }

  lemma ClearSmaller(mask: bv32)
    requires mask != 0
    ensures ClearLowest(mask) < mask && !Odd(ClearLowest(mask))
  {
  }

  lemma ClearOdd(mask: bv32)
    requires Odd(mask)
    ensures Half(ClearLowest(mask)) == Half(mask)
  {
  }

  lemma ClearEven(mask: bv32)
    requires !Odd(mask)
    ensures Half(ClearLowest(mask)) == ClearLowest(Half(mask))
  {
  }

  /** `mask &= mask - 1` clears exactly the lowest set bit. */
  lemma {:induction false} ClearLowestBits(mask: bv32, k: nat)
    requires mask != 0
    ensures Bit(ClearLowest(mask), k) <==> Bit(mask, k) && k != Ctz(mask)
    decreases k
  {
    hide ClearLowest, Odd, Half;
    MaskStep(mask);
    ClearSmaller(mask);
    if Odd(mask) {
      ClearOdd(mask);
    } else if k > 0 {
      ClearEven(mask);
      ClearLowestBits(Half(mask), k - 1);
    }
  }

  lemma ZeroHasNoBits(k: nat)
    ensures !Bit(0, k)
    decreases k
  {
    if k > 0 {
      ZeroHasNoBits(k - 1);
    }
  }

  lemma PushBelow(rest: bv32, bit: bool, limit: bv32)
    requires limit <= 0x8000_0000 && rest < Half(limit)
    ensures Push(rest, bit) < limit
  {
  }

  lemma PushFits(rest: bv32, bit: bool, width: nat)
    requires 0 < width <= 31 && Below(rest, 32 - width)
    ensures Below(Push(rest, bit), 31 - width)
  {
    hide Power, Push, Half;
    PowerBound(31 - width);
    PowerStep(31 - width);
    PushBelow(rest, bit, Power(31 - width));
  }

  lemma PushSplits(rest: bv32, bit: bool)
    requires rest < 0x8000_0000
    ensures Half(Push(rest, bit)) == rest && Odd(Push(rest, bit)) == bit
  {
  }

  lemma {:induction false} MoveMaskFits(haystack: string, start: nat, width: nat, first: char)
    requires start + width <= |haystack| && width <= 31
    ensures Below(MoveMask(haystack, start, width, first), 31 - width)
    decreases width
  {
    hide Below;
    if width == 0 {
      ZeroBelow();
    } else {
      hide Push;
      MoveMaskFits(haystack, start + 1, width - 1, first);
      PushFits(MoveMask(haystack, start + 1, width - 1, first), haystack[start] == first, width);
    }
  }

  lemma {:induction false} MoveMaskBits(haystack: string, start: nat, width: nat, first: char, j: nat)
    requires start + width <= |haystack| && width <= 32
    ensures Bit(MoveMask(haystack, start, width, first), j) <==> j < width && haystack[start + j] == first
    decreases width
  {
    if width == 0 {
      ZeroHasNoBits(j);
    } else {
      hide Push, Half, Odd, Below;
      MoveMaskFits(haystack, start + 1, width - 1, first);
      BelowTop(MoveMask(haystack, start + 1, width - 1, first), 32 - width);
      PushSplits(MoveMask(haystack, start + 1, width - 1, first), haystack[start] == first);
      if j > 0 {
        MoveMaskBits(haystack, start + 1, width - 1, first, j - 1);
      }
    }
  }

  // ----- The scan -----

  /** The least offset at which needle occurs, None for npos. */
  ghost predicate IsFirstOccurrence(haystack: string, needle: string, found: Option<nat>) {
    match found
    case Some(at) => OccursAt(haystack, needle, at) && forall k: nat :: k < at ==> !OccursAt(haystack, needle, k)
    case None => forall k: nat :: !OccursAt(haystack, needle, k)
  }

  lemma FirstByte(haystack: string, needle: string, k: nat)
    requires needle != ""
    ensures OccursAt(haystack, needle, k) ==> k < |haystack| && haystack[k] == needle[0]
  {
    if OccursAt(haystack, needle, k) {
      assert haystack[k..k + |needle|][0] == haystack[k];
    }
  }

  method FindSubstring(haystack: string, needle: string, chunkWidth: nat) returns (found: Option<nat>)
    requires 1 <= chunkWidth <= 32
    ensures IsFirstOccurrence(haystack, needle, found)
  {
    if |needle| == 0 {
      assert OccursAt(haystack, needle, 0);
      return Some(0);
    }
    if |needle| > |haystack| {
      return None;
    }
    hide ClearLowest, MoveMask, Bit, Ctz;
    var chunkStart := 0;
    while chunkStart + chunkWidth <= |haystack|
      invariant chunkStart <= |haystack|
      invariant forall k: nat :: k < chunkStart ==> !OccursAt(haystack, needle, k)
    {
      var mask := MoveMask(haystack, chunkStart, chunkWidth, needle[0]);
      forall j: nat ensures Bit(mask, j) <==> j < chunkWidth && haystack[chunkStart + j] == needle[0] {
        MoveMaskBits(haystack, chunkStart, chunkWidth, needle[0], j);
      }
      while mask != 0
        invariant forall j: nat :: Bit(mask, j) ==> j < chunkWidth && haystack[chunkStart + j] == needle[0]
        invariant forall j: nat :: j < chunkWidth && haystack[chunkStart + j] == needle[0] && !Bit(mask, j) ==>
          !OccursAt(haystack, needle, chunkStart + j)
        decreases mask
      {
        var bit := Ctz(mask);
        var candidatePos := chunkStart + bit;
        forall k: nat | chunkStart <= k < candidatePos ensures !OccursAt(haystack, needle, k) {
          FirstByte(haystack, needle, k);
          assert haystack[chunkStart + (k - chunkStart)] == haystack[k];
          assert !Bit(mask, k - chunkStart);
        }
        if candidatePos + |needle| <= |haystack| && haystack[candidatePos..candidatePos + |needle|] == needle {
          return Some(candidatePos);
        }
        forall j: nat ensures Bit(ClearLowest(mask), j) <==> Bit(mask, j) && j != bit {
          ClearLowestBits(mask, j);
        }
        ClearSmaller(mask);
        mask := ClearLowest(mask);
      }
      forall k: nat | chunkStart <= k < chunkStart + chunkWidth ensures !OccursAt(haystack, needle, k) {
        ZeroHasNoBits(k - chunkStart);
        FirstByte(haystack, needle, k);
        assert haystack[chunkStart + (k - chunkStart)] == haystack[k];
      }
      chunkStart := chunkStart + chunkWidth;
    }
    var pos := chunkStart;
    while pos + |needle| <= |haystack|
      invariant forall k: nat :: k < pos ==> !OccursAt(haystack, needle, k)
    {
      if haystack[pos] == needle[0] && haystack[pos..pos + |needle|] == needle {
        return Some(pos);
      }
      pos := pos + 1;
    }
    return None;
  }
}
