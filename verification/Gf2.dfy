/**
 Polynomials over GF(2), and the remainder modulo the CRC-16/ARC generator.

 A polynomial is the finite set of the exponents whose coefficient is one, so equality of
 polynomials is equality of sets and addition is symmetric difference.
 */
module Gf2 {

  type Poly = set<nat>

  /** The generator x^16 + x^15 + x^2 + 1 of CRC-16/ARC. */
  const GENERATOR: Poly := {16, 15, 2, 0}

  ghost function Add(p: Poly, q: Poly): Poly {
    (p - q) + (q - p)
  }

  ghost function TimesX(p: Poly): Poly {
    set e | e in p :: e + 1
  }

  ghost function Scale(bit: bool, p: Poly): Poly {
    if bit then p else {}
  }

  /** The product of `p` and the polynomial whose coefficients, highest first, are `bits` (Horner's scheme). */
  ghost function Times(bits: seq<bool>, p: Poly): Poly {
    if bits == [] then {}
    else Add(TimesX(Times(bits[..|bits| - 1], p)), Scale(bits[|bits| - 1], p))
  }

  ghost predicate Below16(p: Poly) {
    forall e | e in p :: e < 16
  }

  /** `r` is a remainder of the division of `p` by the generator. */
  ghost predicate IsRemainder(p: Poly, r: Poly) {
    Below16(r) && exists quotient :: p == Add(Times(quotient, GENERATOR), r)
  }

  lemma TimesXAt(p: Poly, e: nat)
    ensures e in TimesX(p) <==> e >= 1 && e - 1 in p
  {
    if e >= 1 && e - 1 in p {
      assert (e - 1) + 1 in TimesX(p);
    }
  }

  lemma TimesXAdd(p: Poly, q: Poly)
    ensures TimesX(Add(p, q)) == Add(TimesX(p), TimesX(q))
  {
    forall e: nat ensures e in TimesX(Add(p, q)) <==> e in Add(TimesX(p), TimesX(q)) {
      TimesXAt(p, e);
      TimesXAt(q, e);
      TimesXAt(Add(p, q), e);
    }
  }

  /**
   Multiplying by a monomial reads the coefficients off: exponent `k + i` is present when bit `i` from the right is.
   */
  lemma {:induction false} TimesMonomial(bits: seq<bool>, k: nat, e: nat)
    ensures e in Times(bits, {k}) <==> k <= e < k + |bits| && bits[|bits| - 1 - (e - k)]
  {
    if bits != [] {
      var front := bits[..|bits| - 1];
      TimesXAt(Times(front, {k}), e);
      if e >= 1 {
        TimesMonomial(front, k, e - 1);
      }
    }
  }

  lemma {:induction false} TimesLeadingZeros(n: nat, bits: seq<bool>, p: Poly)
    ensures Times(seq(n, i => false) + bits, p) == Times(bits, p)
    decreases |bits|, n
  {
    var padded := seq(n, i => false) + bits;
    if bits == [] {
      if n > 0 {
        assert padded[..|padded| - 1] == seq(n - 1, i => false) + bits;
        TimesLeadingZeros(n - 1, bits, p);
      }
    } else {
      assert padded[..|padded| - 1] == seq(n, i => false) + bits[..|bits| - 1];
      TimesLeadingZeros(n, bits[..|bits| - 1], p);
    }
  }

  function XorBits(a: seq<bool>, b: seq<bool>): (r: seq<bool>)
    requires |a| == |b|
    ensures |r| == |a| && forall i | 0 <= i < |a| :: r[i] == (a[i] != b[i])
  {
    seq(|a|, i requires 0 <= i < |a| => a[i] != b[i])
  }

  lemma {:induction false} TimesAdditive(a: seq<bool>, b: seq<bool>, p: Poly)
    requires |a| == |b|
    ensures Times(XorBits(a, b), p) == Add(Times(a, p), Times(b, p))
  {
    if a != [] {
      var n := |a| - 1;
      assert XorBits(a, b)[..n] == XorBits(a[..n], b[..n]);
      TimesAdditive(a[..n], b[..n], p);
      TimesXAdd(Times(a[..n], p), Times(b[..n], p));
    }
  }

  /** No non-zero multiple of the generator has degree below sixteen. */
  lemma {:induction false} MultipleIsHigh(bits: seq<bool>) returns (e: nat)
    ensures Times(bits, GENERATOR) == {} || (e in Times(bits, GENERATOR) && e >= 16)
    ensures forall d | d in Times(bits, GENERATOR) :: d <= e
  {
    if bits == [] {
      e := 0;
    } else {
      var rest := Times(bits[..|bits| - 1], GENERATOR);
      var top := MultipleIsHigh(bits[..|bits| - 1]);
      e := if rest == {} then 16 else top + 1;
      TimesXAt(rest, e);
      forall d | d in Times(bits, GENERATOR) ensures d <= e {
        TimesXAt(rest, d);
      }
    }
  }

  /** Two multiples of the generator that differ by less than degree sixteen are equal. */
  lemma MultiplesAgree(a: seq<bool>, b: seq<bool>)
    requires Below16(Add(Times(a, GENERATOR), Times(b, GENERATOR)))
    ensures Times(a, GENERATOR) == Times(b, GENERATOR)
  {
    var a' := seq(|b|, i => false) + a;
    var b' := seq(|a|, i => false) + b;
    TimesLeadingZeros(|b|, a, GENERATOR);
    TimesLeadingZeros(|a|, b, GENERATOR);
    TimesAdditive(a', b', GENERATOR);
    var e := MultipleIsHigh(XorBits(a', b'));
  }

  lemma RemainderUnique(p: Poly, r: Poly, s: Poly)
    requires IsRemainder(p, r) && IsRemainder(p, s)
    ensures r == s
  {
    var a :| p == Add(Times(a, GENERATOR), r);
    var b :| p == Add(Times(b, GENERATOR), s);
    CancelLeft(Times(a, GENERATOR), r, Times(b, GENERATOR), s);
    MultiplesAgree(a, b);
  }

  lemma CancelLeft(m: Poly, r: Poly, n: Poly, s: Poly)
    requires Add(m, r) == Add(n, s)
    ensures Add(m, n) == Add(r, s)
    ensures m == n ==> r == s
  {
    forall e: nat ensures e in Add(m, n) <==> e in Add(r, s) {
      assert e in Add(m, r) <==> e in Add(n, s);
    }
    if m == n {
      assert r == Add(m, Add(m, r)) && s == Add(n, Add(n, s));
    }
  }
}
