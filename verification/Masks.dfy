// Thread masks: 32-bit words, one bit for each thread.
module Masks {
  predicate HasBit(m: nat, i: nat) {
    if i == 0 then m % 2 == 1 else HasBit(m / 2, i - 1)
  }

  // m | (1 << i)
  function SetBit(m: nat, i: nat): nat {
    if i == 0 then (if m % 2 == 1 then m else m + 1)
    else m % 2 + 2 * SetBit(m / 2, i - 1)
  }

  function Pow2(n: nat): nat { if n == 0 then 1 else 2 * Pow2(n - 1) }

  lemma {:induction false} SetBitBits(m: nat, i: nat, j: nat)
    ensures HasBit(SetBit(m, i), j) <==> HasBit(m, j) || i == j
  {
    if i > 0 {
      assert SetBit(m, i) % 2 == m % 2 && SetBit(m, i) / 2 == SetBit(m / 2, i - 1);
      if j > 0 {
        SetBitBits(m / 2, i - 1, j - 1);
      }
    } else if j > 0 {
      assert SetBit(m, i) / 2 == m / 2;
    }
  }

  // Setting a bit of an n-bit word leaves an n-bit word
  lemma {:induction false} SetBitFits(m: nat, i: nat, n: nat)
    requires m < Pow2(n) && i < n
    ensures SetBit(m, i) < Pow2(n)
  {
    if i > 0 {
      SetBitFits(m / 2, i - 1, n - 1);
    }
  }

  lemma Pow32()
    ensures Pow2(32) == 0x1_0000_0000
  {
    assert Pow2(8) == 256;
    assert Pow2(16) == 0x1_0000;
    assert Pow2(24) == 0x100_0000;
  }

  lemma {:induction false} NoBits(i: nat)
    ensures !HasBit(0, i)
  {
    if i > 0 {
      NoBits(i - 1);
    }
  }

  // The mask of a whole mailbox: 64 threads in two words
  predicate InMask(low: nat, high: nat, t: nat) {
    if t < 32 then HasBit(low, t) else HasBit(high, t - 32)
  }
}
