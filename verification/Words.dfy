/** 32-bit words: the named forms of the operators that the checksum and the mask scan share. */
module Words {
  predicate Odd(w: bv32) {
    w & 1 == 1
  }

  function Half(w: bv32): bv32 {
    w >> 1
  }

  /** Powers of two from 2^31 downwards. */
  function Power(k: nat): bv32 {
    if k == 0 then 0x8000_0000 else Half(Power(k - 1))
  }

  lemma PowerStep(k: nat)
    ensures Power(k + 1) == Half(Power(k))
  {
    hide Half;
  }

  lemma PowerBound(k: nat)
    ensures Power(k) <= 0x8000_0000
  {
    if k > 0 {
      PowerBound(k - 1);
    }
  }

  lemma PowerPositive()
    ensures Power(31) > 0
  {
    assert Power(4) == 0x0800_0000;
    assert Power(8) == 0x0080_0000;
    assert Power(12) == 0x0008_0000;
    assert Power(16) == 0x0000_8000;
    assert Power(20) == 0x0000_0800;
    assert Power(24) == 0x0000_0080;
    assert Power(28) == 0x0000_0008;
  }

  /** w is below 2^(31 - k). */
  predicate Below(w: bv32, k: nat) {
    w < Power(k)
  }

  lemma ZeroBelow()
    ensures Below(0, 31)
  {
    hide Power;
    PowerPositive();
  }

  lemma BelowTop(w: bv32, k: nat)
    requires Below(w, k)
    ensures w < 0x8000_0000
  {
    hide Power;
    PowerBound(k);
  }
}
