/**
 CRC-16/ARC as the C3 codec computes it, and its meaning as a polynomial remainder.

 `Compute` is the nested bit loop over a 16-bit register. The register, read with its least
 significant bit as the coefficient of x^15, holds the remainder of the message times x^16.
 */
module Crc16 {
  import opened Bits
  import opened BitStream
  import opened Bytes
  import opened Gf2

  const FEEDBACK: word := 0xA001

  function Xor16(a: word, b: word): word {
    Widths();
    XorBound(a, b, 16);
    Xor(a, b)
  }

  function Step(crc: word): word {
    if crc % 2 == 1 then Xor16(crc / 2, FEEDBACK) else crc / 2
  }

  function Steps(crc: word, n: nat): word {
    if n == 0 then crc else Step(Steps(crc, n - 1))
  }

  /** The whole byte is added to the register, which then takes one step for each of its bits. */
  function ByteStep(crc: word, b: byte): word {
    Steps(Xor16(crc, b), |ByteBits(b)|)
  }

  function From(crc: word, data: seq<byte>): word {
    if data == [] then crc else ByteStep(From(crc, data[..|data| - 1]), data[|data| - 1])
  }

  function Crc(data: seq<byte>): word {
    From(0, data)
  }

  method Compute(data: seq<byte>) returns (crc: word)
    ensures crc == Crc(data)
  {
    crc := 0;
    for i := 0 to |data|
      invariant crc == Crc(data[..i])
    {
      ghost var before := crc;
      crc := Xor16(crc, data[i]);
      for bit := 0 to 8
        invariant crc == Steps(Xor16(before, data[i]), bit)
      {
        if crc % 2 == 1 {
          crc := Xor16(crc / 2, FEEDBACK);
        } else {
          crc := crc / 2;
        }
      }
      assert data[..i + 1][..i] == data[..i];
    }
    assert data[..|data|] == data;
  }

  // ---- The register as a polynomial ----

  /** The least significant bit of the register is the coefficient of x^15. */
  ghost function Register(w: word): Poly {
    set e: nat | e < 16 && Coefficient(w, e)
  }

  ghost predicate Coefficient(w: word, e: nat) {
    e < 16 && Bit(w, 15 - e)
  }

  lemma RegisterXor(a: word, b: word)
    ensures Register(Xor16(a, b)) == Add(Register(a), Register(b))
  {
    forall e: nat | e < 16 ensures Coefficient(Xor16(a, b), e) <==> Coefficient(a, e) != Coefficient(b, e) {
      BitXor(a, b, 15 - e);
    }
  }

  lemma RegisterInjective(a: word, b: word)
    requires Register(a) == Register(b)
    ensures a == b
  {
    forall i: nat | i < 16 ensures Bit(a, i) == Bit(b, i) {
      assert 15 - i in Register(a) <==> Coefficient(a, 15 - i);
      assert 15 - i in Register(b) <==> Coefficient(b, 15 - i);
    }
    Widths();
    BitsDetermine(a, b, 16);
  }

  lemma RegisterZero()
    ensures Register(0) == {}
  {
    forall e: nat | e < 16 ensures !Coefficient(0, e) {
      BitOfZero(15 - e);
    }
  }

  // ---- One register step as multiplication by x modulo the generator ----

  ghost function PolyStep(p: Poly): Poly {
    Add(TimesX(p), Scale(15 in p, GENERATOR))
  }

  ghost function PolySteps(p: Poly, n: nat): Poly {
    if n == 0 then p else PolyStep(PolySteps(p, n - 1))
  }

  lemma FeedbackBits(i: nat)
    requires i < 16
    ensures Bit(FEEDBACK, i) <==> i in {0, 13, 15}
  {
    Widths();
    BitOfSum(0x01, 0xA0, 8, i);
    var k := i % 8;
    if k == 0 {} else if k == 1 {} else if k == 2 {} else if k == 3 {}
    else if k == 4 {} else if k == 5 {} else if k == 6 {} else if k == 7 {}
  }

  lemma CoefficientStep(w: word, e: nat)
    requires e < 16
    ensures Coefficient(Step(w), e) <==> ((e >= 1 && Coefficient(w, e - 1)) != (Coefficient(w, 15) && e in {0, 2, 15}))
  {
    assert Bit(w / 2, 15 - e) == Bit(w, 16 - e);
    Widths();
    HighBitsClear(w, 16, 16);
    BitXor(w / 2, FEEDBACK, 15 - e);
    FeedbackBits(15 - e);
  }

  lemma RegisterStep(w: word)
    ensures Register(Step(w)) == PolyStep(Register(w))
  {
    forall e: nat ensures e in Register(Step(w)) <==> e in PolyStep(Register(w)) {
      TimesXAt(Register(w), e);
      if e < 16 {
        CoefficientStep(w, e);
      }
    }
  }

  lemma {:induction false} RegisterSteps(w: word, n: nat)
    ensures Register(Steps(w, n)) == PolySteps(Register(w), n)
  {
    if n > 0 {
      RegisterSteps(w, n - 1);
      RegisterStep(Steps(w, n - 1));
    }
  }

  lemma PolyStepAdd(p: Poly, q: Poly)
    ensures PolyStep(Add(p, q)) == Add(PolyStep(p), PolyStep(q))
  {
    TimesXAdd(p, q);
  }

  lemma {:induction false} PolyStepsAdd(p: Poly, q: Poly, n: nat)
    ensures PolySteps(Add(p, q), n) == Add(PolySteps(p, n), PolySteps(q, n))
  {
    if n > 0 {
      PolyStepsAdd(p, q, n - 1);
      PolyStepAdd(PolySteps(p, n - 1), PolySteps(q, n - 1));
    }
  }

  lemma PolyStepBelow(p: Poly)
    requires Below16(p)
    ensures Below16(PolyStep(p))
  {
    forall e | e in PolyStep(p) ensures e < 16 {
      TimesXAt(p, e);
    }
  }

  /** Multiplication by x is invertible modulo the generator, because the generator's constant term is one. */
  lemma PolyStepInjective(p: Poly, q: Poly)
    requires Below16(p) && Below16(q) && PolyStep(p) == PolyStep(q)
    ensures p == q
  {
    TimesXAt(p, 0);
    TimesXAt(q, 0);
    assert 15 in p <==> 0 in PolyStep(p);
    assert 15 in q <==> 0 in PolyStep(q);
    forall e: nat ensures e in p <==> e in q {
      TimesXAt(p, e + 1);
      TimesXAt(q, e + 1);
      assert e + 1 in PolyStep(p) <==> e + 1 in PolyStep(q);
    }
  }

  // ---- Serial view: the register absorbs one message bit at a time ----

  ghost function Absorb(p: Poly, bits: seq<bool>): Poly {
    if bits == [] then p
    else PolyStep(Add(Absorb(p, bits[..|bits| - 1]), Scale(bits[|bits| - 1], {15})))
  }

  lemma {:induction false} AbsorbConcat(p: Poly, a: seq<bool>, b: seq<bool>)
    ensures Absorb(p, a + b) == Absorb(Absorb(p, a), b)
  {
    if b == [] {
      assert a + b == a;
    } else {
      assert (a + b)[..|a + b| - 1] == a + b[..|b| - 1];
      AbsorbConcat(p, a, b[..|b| - 1]);
    }
  }

  lemma {:induction false} AbsorbBelow(p: Poly, bits: seq<bool>)
    requires Below16(p)
    ensures Below16(Absorb(p, bits))
  {
    if bits != [] {
      AbsorbBelow(p, bits[..|bits| - 1]);
      PolyStepBelow(Add(Absorb(p, bits[..|bits| - 1]), Scale(bits[|bits| - 1], {15})));
    }
  }

  lemma {:induction false} AbsorbInjective(p: Poly, q: Poly, bits: seq<bool>)
    requires Below16(p) && Below16(q) && Absorb(p, bits) == Absorb(q, bits)
    ensures p == q
  {
    if bits != [] {
      var front, last := bits[..|bits| - 1], Scale(bits[|bits| - 1], {15});
      AbsorbBelow(p, front);
      AbsorbBelow(q, front);
      PolyStepInjective(Add(Absorb(p, front), last), Add(Absorb(q, front), last));
      assert Absorb(p, front) == Add(Add(Absorb(p, front), last), last);
      assert Absorb(q, front) == Add(Add(Absorb(q, front), last), last);
      AbsorbInjective(p, q, front);
    }
  }

  lemma {:induction false} AbsorbAdd(p: Poly, q: Poly, a: seq<bool>, b: seq<bool>)
    requires |a| == |b|
    ensures Absorb(Add(p, q), XorBits(a, b)) == Add(Absorb(p, a), Absorb(q, b))
  {
    if a != [] {
      var n := |a| - 1;
      assert XorBits(a, b)[..n] == XorBits(a[..n], b[..n]);
      AbsorbAdd(p, q, a[..n], b[..n]);
      var pa, qb := Add(Absorb(p, a[..n]), Scale(a[n], {15})), Add(Absorb(q, b[..n]), Scale(b[n], {15}));
      assert Add(Absorb(Add(p, q), XorBits(a[..n], b[..n])), Scale(XorBits(a, b)[n], {15})) == Add(pa, qb);
      PolyStepAdd(pa, qb);
    }
  }

  /** Up to sixteen pending message bits, aligned with the register. */
  ghost function Window(bits: seq<bool>): Poly
    requires |bits| <= 16
  {
    set e: nat | e < 16 && Pending(bits, e)
  }

  ghost predicate Pending(bits: seq<bool>, e: nat)
    requires |bits| <= 16
  {
    16 - |bits| <= e < 16 && bits[15 - e]
  }

  lemma {:induction false} Climb(k: nat)
    requires k <= 15
    ensures PolySteps({15 - k}, k) == {15}
    decreases k
  {
    ClimbFrom(15 - k, k);
  }

  lemma {:induction false} ClimbFrom(e: nat, n: nat)
    requires e + n <= 15
    ensures PolySteps({e}, n) == {e + n}
  {
    if n > 0 {
      ClimbFrom(e, n - 1);
      assert TimesX({e + n - 1}) == {e + n};
    }
  }

  /** Absorbing up to sixteen bits is adding them to the register at once and then stepping. */
  lemma {:induction false} AbsorbWindow(p: Poly, bits: seq<bool>)
    requires |bits| <= 16
    ensures Absorb(p, bits) == PolySteps(Add(p, Window(bits)), |bits|)
  {
    if bits == [] {
      assert Add(p, Window(bits)) == p;
    } else {
      var n := |bits| - 1;
      var front, last := bits[..n], bits[n];
      AbsorbWindow(p, front);
      var unit := Scale(last, {15 - n});
      assert Add(p, Window(bits)) == Add(Add(p, Window(front)), unit);
      PolyStepsAdd(Add(p, Window(front)), unit, n);
      Climb(n);
      PolyStepsZero(n);
      assert PolySteps(unit, n) == Scale(last, {15});
    }
  }

  lemma {:induction false} PolyStepsZero(n: nat)
    ensures PolySteps({}, n) == {}
  {
    if n > 0 {
      PolyStepsZero(n - 1);
    }
  }

  lemma RegisterByte(b: byte)
    ensures Register(b) == Window(ByteBits(b))
  {
    forall e: nat | e < 16 ensures Coefficient(b, e) <==> Pending(ByteBits(b), e) {
      if 15 - e >= 8 {
        Widths();
        HighBitsClear(b, 8, 15 - e);
      }
    }
  }

  lemma RegisterByteStep(crc: word, b: byte)
    ensures Register(ByteStep(crc, b)) == Absorb(Register(crc), ByteBits(b))
  {
    RegisterXor(crc, b);
    RegisterByte(b);
    RegisterSteps(Xor16(crc, b), 8);
    AbsorbWindow(Register(crc), ByteBits(b));
  }

  /** The byte-wise loop computes the serial absorption of the message bits. */
  lemma {:induction false} CrcAbsorbs(crc: word, data: seq<byte>)
    ensures Register(From(crc, data)) == Absorb(Register(crc), MessageBits(data))
  {
    if data != [] {
      var front, last := data[..|data| - 1], data[|data| - 1];
      CrcAbsorbs(crc, front);
      RegisterByteStep(From(crc, front), last);
      AbsorbConcat(Register(crc), MessageBits(front), ByteBits(last));
    }
  }

  lemma CrcRegister(data: seq<byte>)
    ensures Register(Crc(data)) == Absorb({}, MessageBits(data))
  {
    RegisterZero();
    CrcAbsorbs(0, data);
  }

  // ---- Main results ----

  /** One step of long division: bringing down a bit and subtracting the generator when it fits. */
  lemma DivisionStep(dividend: Poly, multiple: Poly, r: Poly, bit: bool)
    requires dividend == Add(multiple, r)
    ensures var fed := Add(r, Scale(bit, {15}));
            Add(TimesX(dividend), Scale(bit, {16})) ==
            Add(Add(TimesX(multiple), Scale(15 in fed, GENERATOR)), PolyStep(fed))
  {
    var fed := Add(r, Scale(bit, {15}));
    TimesXAdd(multiple, r);
    TimesXAdd(r, Scale(bit, {15}));
    assert TimesX({15}) == {16};
    Regroup(TimesX(multiple), TimesX(r), Scale(bit, {16}), Scale(15 in fed, GENERATOR));
  }

  lemma Regroup(a: Poly, b: Poly, c: Poly, d: Poly)
    ensures Add(Add(a, b), c) == Add(Add(a, d), Add(Add(b, c), d))
  {
    forall e: nat ensures e in Add(Add(a, b), c) <==> e in Add(Add(a, d), Add(Add(b, c), d)) {
    }
  }

  lemma {:induction false} AbsorbRemainder(bits: seq<bool>) returns (quotient: seq<bool>)
    ensures Times(bits, {16}) == Add(Times(quotient, GENERATOR), Absorb({}, bits))
  {
    if bits == [] {
      quotient := [];
    } else {
      var front, last := bits[..|bits| - 1], bits[|bits| - 1];
      var q := AbsorbRemainder(front);
      var r := Absorb({}, front);
      quotient := q + [15 in Add(r, Scale(last, {15}))];
      assert quotient[..|quotient| - 1] == q;
      DivisionStep(Times(front, {16}), Times(q, GENERATOR), r, last);
    }
  }

  /** The loop computes the remainder of message * x^16 modulo x^16 + x^15 + x^2 + 1, the only one there is. */
  lemma CrcIsRemainder(data: seq<byte>, r: Poly)
    ensures IsRemainder(Times(MessageBits(data), {16}), r) <==> r == Register(Crc(data))
  {
    var bits := MessageBits(data);
    CrcRegister(data);
    var quotient := AbsorbRemainder(bits);
    AbsorbBelow({}, bits);
    assert IsRemainder(Times(bits, {16}), Register(Crc(data)));
    if IsRemainder(Times(bits, {16}), r) {
      RemainderUnique(Times(bits, {16}), r, Register(Crc(data)));
    }
  }

  // ---- Linearity ----

  function XorByte(a: byte, b: byte): byte {
    Widths();
    XorBound(a, b, 8);
    Xor(a, b)
  }

  function XorBytes(a: seq<byte>, b: seq<byte>): seq<byte>
    requires |a| == |b|
  {
    seq(|a|, i requires 0 <= i < |a| => XorByte(a[i], b[i]))
  }

  lemma ByteBitsXor(a: byte, b: byte)
    ensures ByteBits(XorByte(a, b)) == XorBits(ByteBits(a), ByteBits(b))
  {
    forall i: nat | i < 8 ensures ByteBits(XorByte(a, b))[i] <==> ByteBits(a)[i] != ByteBits(b)[i] {
      BitXor(a, b, i);
    }
  }

  lemma {:induction false} MessageBitsXor(a: seq<byte>, b: seq<byte>)
    requires |a| == |b|
    ensures MessageBits(XorBytes(a, b)) == XorBits(MessageBits(a), MessageBits(b))
  {
    if a != [] {
      var n := |a| - 1;
      assert XorBytes(a, b)[..n] == XorBytes(a[..n], b[..n]);
      MessageBitsXor(a[..n], b[..n]);
      ByteBitsXor(a[n], b[n]);
      XorBitsConcat(MessageBits(a[..n]), MessageBits(b[..n]), ByteBits(a[n]), ByteBits(b[n]));
    }
  }

  lemma XorBitsConcat(a: seq<bool>, b: seq<bool>, c: seq<bool>, d: seq<bool>)
    requires |a| == |b| && |c| == |d|
    ensures XorBits(a + c, b + d) == XorBits(a, b) + XorBits(c, d)
  {
  }

  /** The CRC is linear on messages of equal length. */
  lemma CrcXor(a: seq<byte>, b: seq<byte>)
    requires |a| == |b|
    ensures Crc(XorBytes(a, b)) == Xor16(Crc(a), Crc(b))
  {
    CrcRegister(a);
    CrcRegister(b);
    CrcRegister(XorBytes(a, b));
    MessageBitsXor(a, b);
    AbsorbAdd({}, {}, MessageBits(a), MessageBits(b));
    assert Add({}, {}) == {};
    RegisterXor(Crc(a), Crc(b));
    RegisterInjective(Crc(XorBytes(a, b)), Xor16(Crc(a), Crc(b)));
  }

  // ---- The checksum on the wire: low byte first ----

  function Word(low: byte, high: byte): word {
    low + 256 * high as int
  }

  lemma RegisterWord(low: byte, high: byte)
    ensures Register(Word(low, high)) == Window(ByteBits(low) + ByteBits(high))
  {
    forall e: nat | e < 16 ensures Coefficient(Word(low, high), e) <==> Pending(ByteBits(low) + ByteBits(high), e) {
      Widths();
      BitOfSum(low, high, 8, 15 - e);
    }
  }

  lemma {:induction false} PolyStepsVanish(p: Poly, n: nat)
    requires Below16(p)
    ensures Below16(PolySteps(p, n))
    ensures PolySteps(p, n) == {} <==> p == {}
  {
    if n > 0 {
      PolyStepsVanish(p, n - 1);
      PolyStepBelow(PolySteps(p, n - 1));
      if PolyStep(PolySteps(p, n - 1)) == {} {
        PolyStepInjective(PolySteps(p, n - 1), {});
      }
    }
  }

  /** Absorbing sixteen bits clears the register exactly when they equal its content. */
  lemma AbsorbClears(r: word, w: word, bits: seq<bool>)
    requires |bits| == 16 && Register(w) == Window(bits)
    ensures Absorb(Register(r), bits) == {} <==> r == w
  {
    AbsorbWindow(Register(r), bits);
    PolyStepsVanish(Add(Register(r), Register(w)), 16);
    if Register(r) == Register(w) {
      RegisterInjective(r, w);
    }
  }

  lemma MessageBitsPair(data: seq<byte>, low: byte, high: byte)
    ensures MessageBits(data + [low, high]) == MessageBits(data) + (ByteBits(low) + ByteBits(high))
  {
    assert (data + [low, high])[..|data| + 1] == data + [low] && (data + [low])[..|data|] == data;
  }

  /** A message followed by two bytes has residue zero exactly when those bytes are its CRC, low byte first. */
  lemma CrcResidue(data: seq<byte>, low: byte, high: byte)
    ensures Crc(data + [low, high]) == 0 <==> Crc(data) == Word(low, high)
  {
    var w := ByteBits(low) + ByteBits(high);
    CrcRegister(data);
    CrcRegister(data + [low, high]);
    MessageBitsPair(data, low, high);
    AbsorbConcat({}, MessageBits(data), w);
    RegisterWord(low, high);
    AbsorbClears(Crc(data), Word(low, high), w);
    RegisterZero();
    if Register(Crc(data + [low, high])) == {} {
      RegisterInjective(Crc(data + [low, high]), 0);
    }
  }

  // ---- Burst errors ----

  /** The bit strings agree outside the sixteen positions from `at`. */
  ghost predicate AgreeOutsideBurst(a: seq<bool>, b: seq<bool>, at: nat) {
    |a| == |b| && at + 16 <= |a| && a[..at] == b[..at] && a[at + 16..] == b[at + 16..]
  }

  lemma BurstChangesRegister(a: seq<bool>, b: seq<bool>, at: nat)
    requires AgreeOutsideBurst(a, b, at) && a != b
    ensures Absorb({}, a) != Absorb({}, b)
  {
    var u, v, tail := a[at..at + 16], b[at..at + 16], a[at + 16..];
    assert a == (a[..at] + u) + tail && b == (a[..at] + v) + tail;
    var p := Absorb({}, a[..at]);
    AbsorbBelow({}, a[..at]);
    AbsorbConcat({}, a[..at], u);
    AbsorbConcat({}, a[..at], v);
    AbsorbConcat({}, a[..at] + u, tail);
    AbsorbConcat({}, a[..at] + v, tail);
    if Absorb({}, a) == Absorb({}, b) {
      AbsorbBelow(p, u);
      AbsorbBelow(p, v);
      AbsorbInjective(Absorb(p, u), Absorb(p, v), tail);
      WindowInjective(p, u, v);
    }
  }

  lemma WindowInjective(p: Poly, u: seq<bool>, v: seq<bool>)
    requires Below16(p) && |u| == |v| == 16 && Absorb(p, u) == Absorb(p, v)
    ensures u == v
  {
    AbsorbWindow(p, u);
    AbsorbWindow(p, v);
    var pu, pv := Add(p, Window(u)), Add(p, Window(v));
    PolyStepsAdd(pu, pv, 16);
    PolyStepsVanish(Add(pu, pv), 16);
    forall i | 0 <= i < 16 ensures u[i] == v[i] {
      assert Pending(u, 15 - i) == u[i] && Pending(v, 15 - i) == v[i];
      assert 15 - i !in Add(pu, pv);
    }
  }

  /** Any change confined to sixteen consecutive message bits changes the CRC. */
  lemma BurstChangesCrc(a: seq<byte>, b: seq<byte>, at: nat)
    requires |a| == |b| && a != b && AgreeOutsideBurst(MessageBits(a), MessageBits(b), at)
    ensures Crc(a) != Crc(b)
  {
    if MessageBits(a) == MessageBits(b) {
      MessageBitsInjective(a, b);
    }
    CrcRegister(a);
    CrcRegister(b);
    BurstChangesRegister(MessageBits(a), MessageBits(b), at);
  }

  lemma PrefixBits(a: seq<byte>, b: seq<byte>, i: nat)
    requires i <= |a| && i <= |b| && a[..i] == b[..i]
    ensures MessageBits(a)[..8 * i] == MessageBits(b)[..8 * i]
  {
    MessageBitsSlice(a, 0, i);
    MessageBitsSlice(b, 0, i);
    assert a[0..i] == a[..i] && b[0..i] == b[..i];
  }

  lemma SuffixBits(a: seq<byte>, b: seq<byte>, i: nat)
    requires i <= |a| == |b| && a[i..] == b[i..]
    ensures MessageBits(a)[8 * i..] == MessageBits(b)[8 * i..]
  {
    MessageBitsSlice(a, i, |a|);
    MessageBitsSlice(b, i, |b|);
    assert a[i..|a|] == a[i..] && b[i..|b|] == b[i..];
  }

  /** Changing up to two adjacent bytes is a burst. */
  lemma AdjacentBytesAreBurst(a: seq<byte>, b: seq<byte>, i: nat)
    requires |a| == |b| && i + 2 <= |a| && a[..i] == b[..i] && a[i + 2..] == b[i + 2..]
    ensures AgreeOutsideBurst(MessageBits(a), MessageBits(b), 8 * i)
  {
    PrefixBits(a, b, i);
    SuffixBits(a, b, i + 2);
  }

  /** A burst in a message whose first and last bytes are unchanged is a burst in what lies between them. */
  lemma BurstInside(a: seq<byte>, b: seq<byte>, at: nat) returns (inner: nat)
    requires |a| == |b| >= 4 && a[0] == b[0] && a[|a| - 1] == b[|b| - 1]
    requires AgreeOutsideBurst(MessageBits(a), MessageBits(b), at)
    ensures AgreeOutsideBurst(MessageBits(a[1..|a| - 1]), MessageBits(b[1..|b| - 1]), inner)
  {
    var n := |a| - 1;
    MessageBitsSlice(a, 1, n);
    MessageBitsSlice(b, 1, n);
    inner := BurstInSlice(MessageBits(a), MessageBits(b), at, 8, 8 * n);
  }

  lemma BurstInSlice(a: seq<bool>, b: seq<bool>, at: nat, from: nat, to: nat) returns (inner: nat)
    requires AgreeOutsideBurst(a, b, at) && from + 16 <= to <= |a|
    ensures AgreeOutsideBurst(a[from..to], b[from..to], inner)
  {
    inner := if at <= from then 0 else if at + 16 <= to then at - from else to - 16 - from;
    forall k | 0 <= k < |a| && (k < at || at + 16 <= k) ensures a[k] == b[k] {
      assert if k < at then a[..at][k] == b[..at][k] else a[at + 16..][k - at - 16] == b[at + 16..][k - at - 16];
    }
  }

  lemma InnerDiffers(a: seq<byte>, b: seq<byte>)
    requires |a| == |b| >= 2 && a != b && a[0] == b[0] && a[|a| - 1] == b[|b| - 1]
    ensures a[1..|a| - 1] != b[1..|b| - 1]
  {
    var k :| 0 <= k < |a| && a[k] != b[k];
    assert a[1..|a| - 1][k - 1] != b[1..|b| - 1][k - 1];
  }

  /** A burst that leaves the first and the last byte alone changes the CRC of what lies between them. */
  lemma BurstChangesInnerCrc(a: seq<byte>, b: seq<byte>, at: nat)
    requires |a| == |b| >= 4 && a != b && a[0] == b[0] && a[|a| - 1] == b[|b| - 1]
    requires AgreeOutsideBurst(MessageBits(a), MessageBits(b), at)
    ensures Crc(a[1..|a| - 1]) != Crc(b[1..|b| - 1])
  {
    var inner := BurstInside(a, b, at);
    InnerDiffers(a, b);
    BurstChangesCrc(a[1..|a| - 1], b[1..|b| - 1], inner);
  }
}
