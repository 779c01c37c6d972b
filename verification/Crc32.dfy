/** CRC-32 of src/core/storage/Crc32.cpp: a table-driven fold over bytes, proved equal to the
    bit-serial checksum that section 8 of RFC 1952 defines (reflected polynomial 0xEDB88320),
    and proved to detect every change confined to 32 consecutive bits. */
module Crc32 {
  import opened Common
  import opened Words

  const POLYNOMIAL: bv32 := 0xEDB8_8320
  const ALL_ONES: bv32 := 0xFFFF_FFFF

  // ----- Reference: one message bit at a time, least significant bit of each byte first -----

  function Xor(a: bv32, b: bv32): bv32 {
    a ^ b
  }

  function Bit(b: bool): bv32 {
    if b then 1 else 0
  }

  /** One division step: the low bit decides whether the polynomial is subtracted. */
  function Shift(c: bv32): bv32 {
    if c & 1 == 1 then POLYNOMIAL ^ (c >> 1) else c >> 1
  }

  function FeedBit(state: bv32, bit: bool): bv32 {
    Shift(Xor(state, Bit(bit)))
  }

  function FeedBits(state: bv32, bits: seq<bool>): bv32
    decreases |bits|
  {
    if |bits| == 0 then state else FeedBits(FeedBit(state, bits[0]), bits[1..])
  }

  /** The low `width` bits of n, least significant first. */
  function LowBits(n: nat, width: nat): (bits: seq<bool>)
    ensures |bits| == width
  {
    if width == 0 then [] else [n % 2 == 1] + LowBits(n / 2, width - 1)
  }

  function Bits(data: seq<byte>): (bits: seq<bool>)
    ensures |bits| == 8 * |data|
  {
    if |data| == 0 then [] else LowBits(data[0] as int, 8) + Bits(data[1..])
  }

  /** The checksum, defined on the message's bits. */
  function Checksum(data: seq<byte>): bv32 {
    Xor(FeedBits(ALL_ONES, Bits(data)), ALL_ONES)
  }

  // ----- The code's own form: a 256-entry table and one lookup per byte -----

  function Shifts(c: bv32, n: nat): bv32
    decreases n
  {
    if n == 0 then c else Shifts(Shift(c), n - 1)
  }

  function Twice(w: bv32): bv32 {
    w << 1
  }

  /** Conversion of the low `width` bits of n to a 32-bit word. */
  function Widen(n: nat, width: nat): bv32 {
    if width == 0 then 0 else Xor(Bit(n % 2 == 1), Twice(Widen(n / 2, width - 1)))
  }

  /** Conversion of the low `width` bits of a word to an array index. */
  function Index(w: bv32, width: nat): nat {
    if width == 0 then 0 else (if Odd(w) then 1 else 0) + 2 * Index(Half(w), width - 1)
  }

  ghost predicate IsCrcTable(table: seq<bv32>) {
    |table| == 256 && forall i :: 0 <= i < 256 ==> table[i] == Shifts(Widen(i, 8), 8)
  }

  method MakeCrcTable() returns (table: array<bv32>)
    ensures fresh(table) && IsCrcTable(table[..])
  {
    table := new bv32[256];
    for i := 0 to 256
      invariant forall k :: 0 <= k < i ==> table[k] == Shifts(Widen(k, 8), 8)
    {
      var c: bv32 := Widen(i, 8);
      for bit := 0 to 8
        invariant Shifts(c, 8 - bit) == Shifts(Widen(i, 8), 8)
      {
        c := if c & 1 == 1 then POLYNOMIAL ^ (c >> 1) else c >> 1;
      }
      table[i] := c;
    }
  }

  method Crc32(data: seq<byte>) returns (crc: bv32)
    ensures crc == Checksum(data)
  {
    var table := MakeCrcTable();
    crc := ALL_ONES;
    for i := 0 to |data|
      invariant IsCrcTable(table[..])
      invariant FeedBits(crc, Bits(data[i..])) == FeedBits(ALL_ONES, Bits(data))
    {
      assert data[i..][1..] == data[i + 1..];
      FeedByte(crc, data[i] as int, 8, Bits(data[i + 1..]));
      TableLookup(table[..], crc, data[i]);
      IndexBound(Xor(crc, Widen(data[i] as int, 8)), 8);
      crc := Xor(table[Index(Xor(crc, Widen(data[i] as int, 8)), 8)], DownByte(crc));
      hide *;
    }
    assert data[|data|..] == [];
    crc := Xor(crc, ALL_ONES);
  }

  // ----- Bit-vector facts: first on the operators, then on their named forms -----

  lemma XorFacts(x: bv32, y: bv32, p: bv32)
    ensures (p ^ x) ^ (p ^ y) == x ^ y
    ensures p ^ (x ^ y) == (p ^ x) ^ y
    ensures p ^ (x ^ y) == x ^ (p ^ y)
  {
  }

  lemma LowBitXor(a: bv32, b: bv32)
    ensures (a ^ b) & 1 == (a & 1) ^ (b & 1)
    ensures a & 1 == 1 || a & 1 == 0
    ensures (a ^ b) >> 1 == (a >> 1) ^ (b >> 1)
  {
  }

  lemma ShiftXor(a: bv32, b: bv32)
    ensures Shift(a ^ b) == Shift(a) ^ Shift(b)
  {
    LowBitXor(a, b);
    LowBitXor(b, a);
    XorFacts(a >> 1, b >> 1, POLYNOMIAL);
  }

  lemma XorAssociative(x: bv32, y: bv32, z: bv32)
    ensures Xor(x, Xor(y, z)) == Xor(Xor(x, y), z)
  {
    XorFacts(y, z, x);
  }

  lemma XorSelf(x: bv32)
    ensures Xor(x, 0) == x && Xor(0, x) == x && Xor(x, x) == 0
  {
  }

  lemma XorCommutes(x: bv32, y: bv32)
    ensures Xor(x, y) == Xor(y, x)
  {
  }

  /** Xoring the same word into both sides changes nothing about their difference. */
  lemma XorCancel(a: bv32, b: bv32, m: bv32)
    ensures Xor(Xor(a, m), m) == a
    ensures Xor(a, m) == Xor(b, m) ==> a == b
  {
    hide Xor;
    XorAssociative(a, m, m);
    XorAssociative(b, m, m);
    XorSelf(m);
    XorSelf(a);
    XorSelf(b);
  }

  lemma ShiftLinear(a: bv32, b: bv32)
    ensures Shift(Xor(a, b)) == Xor(Shift(a), Shift(b))
  {
    hide Shift;
    ShiftXor(a, b);
  }

  lemma {:induction false} ShiftsLinear(a: bv32, b: bv32, n: nat)
    ensures Shifts(Xor(a, b), n) == Xor(Shifts(a, n), Shifts(b, n))
    decreases n
  {
    hide Shift, Xor;
    if n > 0 {
      ShiftLinear(a, b);
      ShiftsLinear(Shift(a), Shift(b), n - 1);
    }
  }

  lemma ShiftTwice(w: bv32)
    requires w < 0x8000_0000
    ensures Shift(Twice(w)) == w
  {
  }

  /** The mask of the low n bits. */
  function Ones(n: nat): bv32
    requires n <= 8
  {
    [0, 1, 3, 7, 15, 31, 63, 127, 255][n]
  }

  lemma {:induction false} WidenBound(n: nat, width: nat)
    requires width <= 8
    ensures Widen(n, width) <= Ones(width) <= 255
  {
    if width > 0 {
      WidenBound(n / 2, width - 1);
      TwiceBound(Widen(n / 2, width - 1), n % 2 == 1, width - 1);
      hide Xor, Twice, Bit, Ones;
    }
  }

  lemma TwiceBound(w: bv32, bit: bool, width: nat)
    requires width < 8 && w <= Ones(width)
    ensures Xor(Bit(bit), Twice(w)) <= Ones(width + 1) <= 255
  {
    var ones := Ones(width);
    assert Ones(width + 1) == (ones << 1) + 1 && ones <= 127;
    hide Ones;
    TwiceBelow(w, Bit(bit), ones);
  }

  lemma TwiceBelow(w: bv32, bit: bv32, ones: bv32)
    requires bit <= 1 && w <= ones <= 127
    ensures bit ^ (w << 1) <= (ones << 1) + 1
  {
  }

  lemma {:induction false} IndexBound(w: bv32, width: nat)
    requires width <= 8
    ensures Index(w, width) <= [0, 1, 3, 7, 15, 31, 63, 127, 255][width]
  {
    if width > 0 {
      IndexBound(Half(w), width - 1);
      hide Half, Odd;
    }
  }

  /** `w >> 8`. */
  function DownByte(w: bv32): bv32 {
    w >> 8
  }

  function HighOnly(w: bv32): bv32 {
    w & 0xFFFF_FF00
  }

  function And(a: bv32, b: bv32): bv32 {
    a & b
  }

  /** Reading an index back gives the word's low bits: the code's `& 0xFF`. */
  lemma {:induction false} WidenIndex(w: bv32, width: nat)
    requires width <= 8
    ensures Widen(Index(w, width), width) == And(w, Ones(width))
  {
    if width > 0 {
      WidenIndex(Half(w), width - 1);
      LowBitsSplit(w, width);
      var i := Index(Half(w), width - 1);
      assert ((if Odd(w) then 1 else 0) + 2 * i) / 2 == i;
      hide Xor, Twice, Bit, Ones, Half, Odd, And;
    }
  }

  lemma LowBitsSplit(w: bv32, width: nat)
    requires 0 < width <= 8
    ensures Xor(Bit(Odd(w)), Twice(And(Half(w), Ones(width - 1)))) == And(w, Ones(width))
  {
    var ones := Ones(width - 1);
    assert Ones(width) == (ones << 1) | 1;
    hide Ones;
    LowBitsSplitFact(w, ones);
    LowBitXor(w, w);
  }

  lemma LowBitsSplitFact(w: bv32, ones: bv32)
    ensures (w & 1) ^ (((w >> 1) & ones) << 1) == w & ((ones << 1) | 1)
  {
  }

  // ----- The table form against the reference -----

  /** Feeding `width` bits is xoring them in and shifting `width` times. */
  lemma {:induction false} FeedByte(state: bv32, n: nat, width: nat, rest: seq<bool>)
    requires width <= 8
    ensures FeedBits(state, LowBits(n, width) + rest) ==
            FeedBits(Shifts(Xor(state, Widen(n, width)), width), rest)
    decreases width
  {
    hide Xor, Twice, Bit, Ones, Half, Odd, And, Shift;
    if width == 0 {
      assert LowBits(n, width) + rest == rest;
      XorSelf(state);
    } else {
      var bit := Bit(n % 2 == 1);
      var high := Widen(n / 2, width - 1);
      WidenBound(n / 2, width - 1);
      Small(Widen(n / 2, width - 1), Ones(width - 1));
      ShiftTwice(high);
      XorAssociative(state, bit, Twice(high));
      ShiftLinear(Xor(state, bit), Twice(high));
      assert (LowBits(n, width) + rest)[1..] == LowBits(n / 2, width - 1) + rest;
      FeedByte(FeedBit(state, n % 2 == 1), n / 2, width - 1, rest);
    }
  }

  lemma Small(w: bv32, bound: bv32)
    requires w <= bound <= 255
    ensures w < 0x8000_0000
  {
  }

  predicate LowByteClear(h: bv32) {
    h & 0xFF == 0
  }

  /** A word whose low byte is clear is only moved down by eight shifts. */
  lemma ClearLowByte(h: bv32)
    requires LowByteClear(h)
    ensures Shifts(h, 8) == DownByte(h)
  {
    var h4 := h >> 1 >> 1 >> 1 >> 1;
    FourShifts(h);
    FourShifts(h4);
    ShiftAmounts(h);
    hide Shift;
    assert Shifts(h, 4 + 4) == Shifts(h4, 4);
  }

  lemma HighBytes(w: bv32)
    ensures Shifts(HighOnly(w), 8) == DownByte(HighOnly(w))
  {
    hide Shifts, Shift, LowByteClear, DownByte, HighOnly;
    HighOnlyClear(w);
    ClearLowByte(HighOnly(w));
  }

  lemma HighOnlyClear(w: bv32)
    ensures LowByteClear(HighOnly(w))
  {
  }

  lemma FourShifts(h: bv32)
    requires h & 0xF == 0
    ensures Shift(h) == h >> 1 && Shift(h >> 1) == h >> 1 >> 1
    ensures Shift(h >> 1 >> 1) == h >> 1 >> 1 >> 1
    ensures Shift(h >> 1 >> 1 >> 1) == h >> 1 >> 1 >> 1 >> 1
  {
    assert h & 1 == 0 && (h >> 1) & 1 == 0 && (h >> 1 >> 1) & 1 == 0 && (h >> 1 >> 1 >> 1) & 1 == 0;
  }

  lemma ShiftAmounts(h: bv32)
    requires h & 0xFF == 0
    ensures h & 0xF == 0 && (h >> 1 >> 1 >> 1 >> 1) & 0xF == 0
    ensures h >> 8 == h >> 1 >> 1 >> 1 >> 1 >> 1 >> 1 >> 1 >> 1
  {
  }

  lemma SplitWord(w: bv32)
    ensures w == Xor(And(w, 255), HighOnly(w)) && DownByte(HighOnly(w)) == DownByte(w)
  {
  }

  /** The table step of the code: the entry for the low byte, and the rest moved down a byte. */
  lemma TableLookup(table: seq<bv32>, crc: bv32, b: byte)
    requires IsCrcTable(table)
    ensures Index(Xor(crc, Widen(b as int, 8)), 8) < 256
    ensures Xor(table[Index(Xor(crc, Widen(b as int, 8)), 8)], DownByte(crc)) ==
            Shifts(Xor(crc, Widen(b as int, 8)), 8)
  {
    assert Ones(8) == 255;
    hide Xor, Twice, Bit, Half, Odd, And, Shift, Shifts, Index, Widen, Ones, HighOnly, DownByte;
    var low := Widen(b as int, 8);
    var w := Xor(crc, low);
    IndexBound(w, 8);
    WidenIndex(w, 8);
    SplitWord(w);
    HighBytes(w);
    ShiftsLinear(And(w, 255), HighOnly(w), 8);
    WidenBound(b as int, 8);
    HighPart(crc, low);
  }

  lemma HighPart(crc: bv32, low: bv32)
    requires low <= 255
    ensures DownByte(Xor(crc, low)) == DownByte(crc)
  {
  }

  // ----- Detection -----

  lemma XorOfFour(s: bv32, t: bv32, p: bv32, q: bv32)
    ensures Xor(Xor(s, p), Xor(t, q)) == Xor(Xor(s, t), Xor(p, q))
  {
    hide Xor;
    XorAssociative(Xor(s, p), t, q);
    XorAssociative(s, p, t);
    XorCommutes(p, t);
    XorAssociative(s, t, p);
    XorAssociative(Xor(s, t), p, q);
  }

  lemma ShiftBack(d: bv32, e: bv32, c: bv32, h: bv32)
    requires d == Xor(e, c) && c <= 1
    requires h <= 0x8000_0000 && Shift(d) < Half(h)
    ensures e < h
  {
  }

  lemma BitsXor(a: bool, b: bool)
    ensures Xor(Bit(a), Bit(b)) <= 1
    ensures a != b ==> Xor(Bit(a), Bit(b)) == 1
  {
  }

  lemma ShiftBackBelow(d: bv32, e: bv32, c: bv32, k: nat)
    requires d == Xor(e, c) && c <= 1 && Below(Shift(d), k + 1)
    ensures Below(e, k)
  {
    hide Power, Shift, Half, Xor;
    PowerBound(k);
    PowerStep(k);
    ShiftBack(d, e, c, Power(k));
  }

  /** Two states whose successors differ below bit n differ themselves below bit n + 1. */
  lemma DifferenceBefore(s: bv32, t: bv32, a: bool, b: bool, k: nat)
    requires Below(Xor(FeedBit(s, a), FeedBit(t, b)), k + 1)
    ensures Below(Xor(s, t), k)
  {
    hide Shift, Bit, Xor, Below;
    ShiftLinear(Xor(s, Bit(a)), Xor(t, Bit(b)));
    XorOfFour(s, t, Bit(a), Bit(b));
    BitsXor(a, b);
    ShiftBackBelow(Xor(Xor(s, Bit(a)), Xor(t, Bit(b))), Xor(s, t), Xor(Bit(a), Bit(b)), k);
  }

  lemma ShiftInjective(u: bv32, v: bv32)
    requires Shift(u) == Shift(v)
    ensures u == v
  {
    TopBit(u);
    TopBit(v);
    if u & 1 == 1 {
      XorFacts(u >> 1, v >> 1, POLYNOMIAL);
    }
    HalvesDetermine(u, v);
  }

  lemma TopBit(u: bv32)
    ensures Shift(u) >= 0x8000_0000 <==> u & 1 == 1
    ensures u & 1 != 1 <==> u & 1 == 0
  {
  }

  lemma HalvesDetermine(u: bv32, v: bv32)
    ensures u >> 1 == v >> 1 && u & 1 == v & 1 ==> u == v
  {
  }

  /** If feeding two equally long strings of n <= 31 bits leads to the same state, the states
      they started from differ only below bit n. */
  lemma {:induction false} StatesDifferBelow(s: bv32, t: bv32, x: seq<bool>, y: seq<bool>, k: nat)
    requires |x| == |y| == 31 - k
    requires FeedBits(s, x) == FeedBits(t, y)
    ensures Below(Xor(s, t), k)
    decreases |x|
  {
    hide Xor, FeedBit, Below;
    if |x| == 0 {
      ZeroBelow();
      XorSelf(s);
    } else {
      StatesDifferBelow(FeedBit(s, x[0]), FeedBit(t, y[0]), x[1..], y[1..], k + 1);
      DifferenceBefore(s, t, x[0], y[0], k);
    }
  }

  /** From one state, at most 32 bits are determined by the state they lead to. */
  lemma {:induction false} BurstDecodes(s: bv32, x: seq<bool>, y: seq<bool>)
    requires |x| == |y| <= 32
    requires FeedBits(s, x) == FeedBits(s, y)
    ensures x == y
    decreases |x|
  {
    if |x| > 0 {
      if x[0] == y[0] {
        BurstDecodes(FeedBit(s, x[0]), x[1..], y[1..]);
        assert x == [x[0]] + x[1..] && y == [y[0]] + y[1..];
      } else {
        var k: nat := 32 - |x|;
        StatesDifferBelow(FeedBit(s, x[0]), FeedBit(s, y[0]), x[1..], y[1..], k);
        DifferentBits(s, x[0], y[0]);
        hide *;
        BelowTop(POLYNOMIAL, k);
        assert false;
      }
    }
  }

  lemma DifferentBits(s: bv32, a: bool, b: bool)
    requires a != b
    ensures Xor(FeedBit(s, a), FeedBit(s, b)) == POLYNOMIAL
  {
    ShiftLinear(Xor(s, Bit(a)), Xor(s, Bit(b)));
    XorOfFour(s, s, Bit(a), Bit(b));
    XorSelf(s);
    XorSelf(Xor(Bit(a), Bit(b)));
    BitsXor(a, b);
    assert Shift(1) == POLYNOMIAL;
    hide Shift, Bit, Xor;
  }

  lemma {:induction false} FeedConcat(s: bv32, x: seq<bool>, y: seq<bool>)
    ensures FeedBits(s, x + y) == FeedBits(FeedBits(s, x), y)
    decreases |x|
  {
    hide FeedBit;
    if |x| == 0 {
      assert x + y == y;
    } else {
      assert (x + y)[1..] == x[1..] + y;
      FeedConcat(FeedBit(s, x[0]), x[1..], y);
    }
  }

  lemma {:induction false} FeedInjective(s: bv32, t: bv32, x: seq<bool>)
    requires FeedBits(s, x) == FeedBits(t, x)
    ensures s == t
    decreases |x|
  {
    if |x| > 0 {
      FeedInjective(FeedBit(s, x[0]), FeedBit(t, x[0]), x[1..]);
      var bit := Bit(x[0]);
      ShiftInjective(Xor(s, bit), Xor(t, bit));
      XorCancel(s, t, bit);
      hide Shift, FeedBits;
    }
  }

  lemma {:induction false} LowBitsInjective(m: nat, n: nat, width: nat)
    requires LowBits(m, width) == LowBits(n, width)
    requires width == 8 ==> m < 256 && n < 256
    requires width < 8 ==> m < [1, 2, 4, 8, 16, 32, 64, 128][width] && n < [1, 2, 4, 8, 16, 32, 64, 128][width]
    requires width <= 8
    ensures m == n
    decreases width
  {
    if width > 0 {
      assert LowBits(m, width)[0] == LowBits(n, width)[0];
      assert LowBits(m, width)[1..] == LowBits(m / 2, width - 1);
      assert LowBits(n, width)[1..] == LowBits(n / 2, width - 1);
      LowBitsInjective(m / 2, n / 2, width - 1);
    }
  }

  lemma {:induction false} BitsInjective(p: seq<byte>, q: seq<byte>)
    requires |p| == |q| && Bits(p) == Bits(q)
    ensures p == q
  {
    if |p| > 0 {
      assert Bits(p)[..8] == LowBits(p[0] as int, 8) && Bits(p)[8..] == Bits(p[1..]);
      assert Bits(q)[..8] == LowBits(q[0] as int, 8) && Bits(q)[8..] == Bits(q[1..]);
      LowBitsInjective(p[0] as int, q[0] as int, 8);
      BitsInjective(p[1..], q[1..]);
      assert p == [p[0]] + p[1..] && q == [q[0]] + q[1..];
    }
  }

  /** Two messages of the same length whose bits agree outside a window of 32 consecutive bits. */
  ghost predicate BurstApart(p: seq<byte>, q: seq<byte>, at: nat) {
    && |p| == |q|
    && forall i :: 0 <= i < 8 * |p| && !(at <= i < at + 32) ==> Bits(p)[i] == Bits(q)[i]
  }

  /** Every error burst of up to 32 bits changes the checksum. */
  lemma BurstDetected(p: seq<byte>, q: seq<byte>, at: nat)
    requires BurstApart(p, q, at) && p != q
    ensures Checksum(p) != Checksum(q)
  {
    var x, y := Bits(p), Bits(q);
    var from := if at <= |x| then at else |x|;
    var to := if at + 32 <= |x| then at + 32 else |x|;
    var s := FeedBits(ALL_ONES, x[..from]);
    assert x[..from] == y[..from] && x[to..] == y[to..];
    assert x == x[..from] + (x[from..to] + x[to..]) && y == x[..from] + (y[from..to] + x[to..]);
    FeedConcat(ALL_ONES, x[..from], x[from..to] + x[to..]);
    FeedConcat(ALL_ONES, x[..from], y[from..to] + x[to..]);
    FeedConcat(s, x[from..to], x[to..]);
    FeedConcat(s, y[from..to], x[to..]);
    hide FeedBits;
    if Checksum(p) == Checksum(q) {
      XorCancel(FeedBits(ALL_ONES, x), FeedBits(ALL_ONES, y), ALL_ONES);
      FeedInjective(FeedBits(s, x[from..to]), FeedBits(s, y[from..to]), x[to..]);
      BurstDecodes(s, x[from..to], y[from..to]);
      BitsInjective(p, q);
    }
  }

  /** In particular, changing any single byte changes the checksum. */
  lemma ByteChangeDetected(p: seq<byte>, i: nat, b: byte)
    requires i < |p| && p[i] != b
    ensures Checksum(p[i := b]) != Checksum(p)
  {
    var q := p[i := b];
    BitsOfSlices(p, i);
    BitsOfSlices(q, i);
    assert q[..i] == p[..i] && q[i + 1..] == p[i + 1..];
    forall k | 0 <= k < 8 * |p| && !(8 * i <= k < 8 * i + 32) ensures Bits(p)[k] == Bits(q)[k] {
    }
    BurstDetected(q, p, 8 * i);
  }

  lemma {:induction false} BitsOfSlices(p: seq<byte>, i: nat)
    requires i < |p|
    ensures Bits(p) == Bits(p[..i]) + LowBits(p[i] as int, 8) + Bits(p[i + 1..])
  {
    hide LowBits;
    var head, tail := LowBits(p[0] as int, 8), p[1..];
    if i == 0 {
      assert p[..0] == [];
    } else {
      BitsOfSlices(tail, i - 1);
      assert p[..i][1..] == tail[..i - 1] && tail[i..] == p[i + 1..] && tail[i - 1] == p[i];
      var before, middle, after := Bits(tail[..i - 1]), LowBits(p[i] as int, 8), Bits(p[i + 1..]);
      assert Bits(p) == head + Bits(tail) && Bits(p[..i]) == head + before;
      hide Bits;
      assert head + ((before + middle) + after) == ((head + before) + middle) + after;
    }
  }

  // ----- The check value of the catalogue of CRC algorithms -----

  /** Feeding one byte, with the state after it worked out. */
  lemma FeedsOn(state: bv32, data: seq<byte>, w: bv32, next: bv32)
    requires data != [] && Widen(data[0] as int, 8) == w && Shifts(Xor(state, w), 8) == next
    ensures FeedBits(state, Bits(data)) == FeedBits(next, Bits(data[1..]))
  {
    FeedByte(state, data[0] as int, 8, Bits(data[1..]));
    hide *;
  }

  lemma DoubleWord(n: nat, width: nat, w: bv32)
    requires width > 0 && Widen(n / 2, width - 1) == w
    ensures Widen(n, width) == Xor(Bit(n % 2 == 1), Twice(w))
  {
    hide Xor, Bit, Twice;
  }

  lemma DigitWords()
    ensures Widen(49, 8) == 0x31
    ensures Widen(50, 8) == 0x32
    ensures Widen(51, 8) == 0x33
    ensures Widen(52, 8) == 0x34
    ensures Widen(53, 8) == 0x35
    ensures Widen(54, 8) == 0x36
    ensures Widen(55, 8) == 0x37
    ensures Widen(56, 8) == 0x38
    ensures Widen(57, 8) == 0x39
  {
    hide Widen;
    DigitHalves();
    DoubleWord(49, 8, 24);
    DoubleWord(50, 8, 25);
    DoubleWord(51, 8, 25);
    DoubleWord(52, 8, 26);
    DoubleWord(53, 8, 26);
    DoubleWord(54, 8, 27);
    DoubleWord(55, 8, 27);
    DoubleWord(56, 8, 28);
    DoubleWord(57, 8, 28);
  }

  lemma DigitHalves()
    ensures Widen(24, 7) == 24 && Widen(25, 7) == 25 && Widen(26, 7) == 26 && Widen(27, 7) == 27 && Widen(28, 7) == 28
  {
    assert Widen(6, 5) == 6 && Widen(7, 5) == 7;
    hide Widen;
    DoubleWord(12, 6, 6);
    DoubleWord(13, 6, 6);
    DoubleWord(14, 6, 7);
    DoubleWord(24, 7, 12);
    DoubleWord(25, 7, 12);
    DoubleWord(26, 7, 13);
    DoubleWord(27, 7, 13);
    DoubleWord(28, 7, 14);
  }

  lemma DigitStates()
    ensures Shifts(Xor(0xFFFF_FFFF, 0x31), 8) == 0x7C23_1048
    ensures Shifts(Xor(0x7C23_1048, 0x32), 8) == 0xB0AC_BB32
    ensures Shifts(Xor(0xB0AC_BB32, 0x33), 8) == 0x77B7_9C2D
    ensures Shifts(Xor(0x77B7_9C2D, 0x34), 8) == 0x641C_1F5C
    ensures Shifts(Xor(0x641C_1F5C, 0x35), 8) == 0x340A_C5E3
    ensures Shifts(Xor(0x340A_C5E3, 0x36), 8) == 0xF68D_2C9E
    ensures Shifts(Xor(0xF68D_2C9E, 0x37), 8) == 0xAFFC_9660
    ensures Shifts(Xor(0xAFFC_9660, 0x38), 8) == 0x651F_2550
    ensures Shifts(Xor(0x651F_2550, 0x39), 8) == 0x340B_C6D9
  {
  }

  lemma FirstDigits(data: seq<byte>)
    requires data == "123456789"
    ensures FeedBits(0xFFFF_FFFF, Bits(data[0..])) == FeedBits(0x77B7_9C2D, Bits(data[3..]))
  {
    DigitWords();
    DigitStates();
    hide FeedBits, Bits, Widen, Shifts, Xor;
    FeedsOn(0xFFFF_FFFF, data[0..], 0x31, 0x7C23_1048);
    assert data[0..][1..] == data[1..];
    FeedsOn(0x7C23_1048, data[1..], 0x32, 0xB0AC_BB32);
    assert data[1..][1..] == data[2..];
    FeedsOn(0xB0AC_BB32, data[2..], 0x33, 0x77B7_9C2D);
    assert data[2..][1..] == data[3..];
  }

  lemma MiddleDigits(data: seq<byte>)
    requires data == "123456789"
    ensures FeedBits(0x77B7_9C2D, Bits(data[3..])) == FeedBits(0xF68D_2C9E, Bits(data[6..]))
  {
    DigitWords();
    DigitStates();
    hide FeedBits, Bits, Widen, Shifts, Xor;
    FeedsOn(0x77B7_9C2D, data[3..], 0x34, 0x641C_1F5C);
    assert data[3..][1..] == data[4..];
    FeedsOn(0x641C_1F5C, data[4..], 0x35, 0x340A_C5E3);
    assert data[4..][1..] == data[5..];
    FeedsOn(0x340A_C5E3, data[5..], 0x36, 0xF68D_2C9E);
    assert data[5..][1..] == data[6..];
  }

  lemma LastDigits(data: seq<byte>)
    requires data == "123456789"
    ensures FeedBits(0xF68D_2C9E, Bits(data[6..])) == FeedBits(0x340B_C6D9, Bits(data[9..]))
  {
    DigitWords();
    DigitStates();
    hide FeedBits, Bits, Widen, Shifts, Xor;
    FeedsOn(0xF68D_2C9E, data[6..], 0x37, 0xAFFC_9660);
    assert data[6..][1..] == data[7..];
    FeedsOn(0xAFFC_9660, data[7..], 0x38, 0x651F_2550);
    assert data[7..][1..] == data[8..];
    FeedsOn(0x651F_2550, data[8..], 0x39, 0x340B_C6D9);
    assert data[8..][1..] == data[9..];
  }

  /** The checksum of the nine digits: what the polynomial, the initial state and the final complement
      are fixed by. */
  lemma CheckValue()
    ensures Checksum("123456789") == 0xCBF4_3926
  {
    var data: seq<byte> := "123456789";
    FirstDigits(data);
    MiddleDigits(data);
    LastDigits(data);
    assert data[0..] == data && data[9..] == [];
    assert Bits([]) == [];
  }
}
