/** Binary digits of natural numbers: the bitwise operations of the fixed-width integers, without the width. */
module Bits {

  function Pow2(n: nat): (p: nat)
    ensures p >= 1
  {
    if n == 0 then 1 else 2 * Pow2(n - 1)
  }

  lemma Widths()
    ensures Pow2(8) == 256 && Pow2(16) == 65536
  {
    assert Pow2(4) == 16;
    assert Pow2(8) == 256;
    assert Pow2(12) == 4096;
  }

  predicate Bit(w: nat, i: nat)
    decreases i
  {
    if i == 0 then w % 2 == 1 else Bit(w / 2, i - 1)
  }

  /** Exclusive or, digit by digit. */
  function Xor(a: nat, b: nat): nat
    decreases a + b
  {
    if a == 0 && b == 0 then 0 else (a % 2 + b % 2) % 2 + 2 * Xor(a / 2, b / 2)
  }

  lemma {:induction false} BitXor(a: nat, b: nat, i: nat)
    ensures Bit(Xor(a, b), i) <==> Bit(a, i) != Bit(b, i)
    decreases i
  {
    if a == 0 && b == 0 {
      BitOfZero(i);
    } else if i > 0 {
      assert Xor(a, b) / 2 == Xor(a / 2, b / 2);
      BitXor(a / 2, b / 2, i - 1);
    }
  }

  lemma {:induction false} BitOfZero(i: nat)
    ensures !Bit(0, i)
    decreases i
  {
    if i > 0 {
      BitOfZero(i - 1);
    }
  }

  lemma {:induction false} XorBound(a: nat, b: nat, k: nat)
    requires a < Pow2(k) && b < Pow2(k)
    ensures Xor(a, b) < Pow2(k)
    decreases k
  {
    if k > 0 {
      XorBound(a / 2, b / 2, k - 1);
    }
  }

  lemma {:induction false} HighBitsClear(w: nat, k: nat, i: nat)
    requires w < Pow2(k) && k <= i
    ensures !Bit(w, i)
    decreases k
  {
    if k == 0 {
      BitOfZero(i);
    } else {
      HighBitsClear(w / 2, k - 1, i - 1);
    }
  }

  /** Numbers below 2^k with the same k digits are equal. */
  lemma {:induction false} BitsDetermine(a: nat, b: nat, k: nat)
    requires a < Pow2(k) && b < Pow2(k)
    requires forall i: nat | i < k :: Bit(a, i) == Bit(b, i)
    ensures a == b
    decreases k
  {
    if k > 0 {
      forall i: nat | i < k - 1 ensures Bit(a / 2, i) == Bit(b / 2, i) {
        assert Bit(a, i + 1) == Bit(b, i + 1);
      }
      BitsDetermine(a / 2, b / 2, k - 1);
      assert Bit(a, 0) == Bit(b, 0);
    }
  }

  lemma {:induction false} BitOfSum(low: nat, high: nat, k: nat, i: nat)
    requires low < Pow2(k)
    ensures Bit(low + Pow2(k) * high, i) <==> if i < k then Bit(low, i) else Bit(high, i - k)
    decreases k
  {
    if k > 0 {
      var w := low + Pow2(k) * high;
      assert Pow2(k) * high == 2 * (Pow2(k - 1) * high);
      assert w % 2 == low % 2 && w / 2 == low / 2 + Pow2(k - 1) * high;
      if i > 0 {
        BitOfSum(low / 2, high, k - 1, i - 1);
      }
    }
  }

  /** Setting a digit that is clear. */
  lemma {:induction false} AddBit(w: nat, k: nat, n: nat)
    requires w < Pow2(n) && k < n && !Bit(w, k)
    ensures w + Pow2(k) < Pow2(n)
    ensures forall i: nat :: Bit(w + Pow2(k), i) <==> i == k || Bit(w, i)
    decreases k
  {
    if k > 0 {
      AddBit(w / 2, k - 1, n - 1);
      assert (w + Pow2(k)) / 2 == w / 2 + Pow2(k - 1) && (w + Pow2(k)) % 2 == w % 2;
    } else {
      assert (w + 1) / 2 == w / 2 && Pow2(n) == 2 * Pow2(n - 1);
    }
    forall i: nat ensures Bit(w + Pow2(k), i) <==> i == k || Bit(w, i) {
      if i > 0 && k > 0 {
        assert Bit(w + Pow2(k), i) == Bit(w / 2 + Pow2(k - 1), i - 1);
      }
    }
  }

  /** The number whose digits, lowest first, are these. */
  function FromBits(bits: seq<bool>): nat {
    if bits == [] then 0 else (if bits[0] then 1 else 0) + 2 * FromBits(bits[1..])
  }

  lemma {:induction false} FromBitsBound(bits: seq<bool>)
    ensures FromBits(bits) < Pow2(|bits|)
  {
    if bits != [] {
      FromBitsBound(bits[1..]);
    }
  }

  lemma {:induction false} BitOfFromBits(bits: seq<bool>, i: nat)
    ensures Bit(FromBits(bits), i) <==> i < |bits| && bits[i]
    decreases i
  {
    if bits == [] {
      BitOfZero(i);
    } else if i > 0 {
      assert FromBits(bits) / 2 == FromBits(bits[1..]);
      BitOfFromBits(bits[1..], i - 1);
    }
  }
}
