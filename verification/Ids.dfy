/** The bitwise operators of the id layout, on numbers that are not negative. */
module Bits {
  import opened Numbers

  function Shl(a: nat, k: nat): nat { a * Pow2(k) }

  function Quotient(a: nat, d: nat): nat
    requires d > 0
  {
    a / d
  }

  function Shr(a: nat, k: nat): nat { Quotient(a, Pow2(k)) }

  function Or(a: nat, b: nat): nat
    decreases a + b
  {
    if a == 0 && b == 0 then 0
    else 2 * Or(a / 2, b / 2) + if a % 2 == 1 || b % 2 == 1 then 1 else 0
  }

  function And(a: nat, b: nat): nat
    decreases a + b
  {
    if a == 0 && b == 0 then 0
    else 2 * And(a / 2, b / 2) + if a % 2 == 1 && b % 2 == 1 then 1 else 0
  }

  lemma {:induction false} Pow2Adds(j: nat, k: nat)
    ensures Pow2(j + k) == Pow2(j) * Pow2(k)
  {
    if j > 0 {
      Pow2Adds(j - 1, k);
      assert Pow2(j - 1 + k) == Pow2(j - 1) * Pow2(k);
      assert (2 * Pow2(j - 1)) * Pow2(k) == 2 * (Pow2(j - 1) * Pow2(k));
    }
  }

  lemma {:induction false} OrZero(a: nat)
    ensures Or(a, 0) == a
  {
    if a > 0 {
      OrZero(a / 2);
    }
  }

  /** Fields that do not overlap: the or of a shifted number and one below the shift is their sum. */
  lemma {:induction false} OrIsSum(a: nat, k: nat, b: nat)
    requires b < Pow2(k)
    ensures Or(Shl(a, k), b) == Shl(a, k) + b
  {
    if k == 0 {
      OrZero(a);
    } else {
      var x := a * Pow2(k - 1);
      assert Shl(a, k) == 2 * x;
      if 2 * x > 0 || b > 0 {
        OrIsSum(a, k - 1, b / 2);
        assert Or(2 * x, b) == 2 * Or(x, b / 2) + b % 2;
      }
    }
  }

  /** A mask of k ones keeps the remainder. */
  lemma {:induction false} AndMask(a: nat, k: nat)
    ensures And(a, Pow2(k) - 1) == a % Pow2(k)
  {
    if k == 0 {
      AndZero(a);
      DivModUnique(a, 1, a, 0);
    } else {
      var h := Pow2(k - 1);
      AndMask(a / 2, k - 1);
      MaskStep(a, h);
    }
  }

  lemma MaskStep(a: nat, h: nat)
    requires h > 0 && And(a / 2, h - 1) == a / 2 % h
    ensures And(a, 2 * h - 1) == a % (2 * h)
  {
    hide And;
    AndOdd(a, h - 1);
    HalfMod(a, h);
  }

  lemma AndOdd(a: nat, m: nat)
    ensures And(a, 2 * m + 1) == 2 * And(a / 2, m) + a % 2
  {
    assert (2 * m + 1) / 2 == m;
  }

  lemma {:induction false} AndZero(a: nat)
    ensures And(a, 0) == 0
  {
    if a > 0 {
      AndZero(a / 2);
    }
  }

  lemma HalfMod(a: nat, h: nat)
    requires h > 0
    ensures a % (2 * h) == 2 * (a / 2 % h) + a % 2
  {
    var q, r := a / 2 / h, a / 2 % h;
    assert a / 2 == q * h + r;
    assert a == q * (2 * h) + (2 * r + a % 2);
    DivModUnique(a, 2 * h, q, 2 * r + a % 2);
  }

  lemma DivModUnique(a: nat, d: nat, q: nat, r: nat)
    requires d > 0 && a == q * d + r && r < d
    ensures a / d == q && a % d == r
  {
    var q', r' := a / d, a % d;
    assert a == q' * d + r';
    MixedOrder(q', r', q, r, d);
    MixedOrder(q, r, q', r', d);
  }

  /** Two-digit numbers to the base p compare digit by digit. */
  lemma MixedOrder(a: nat, x: nat, b: nat, y: nat, p: nat)
    requires x < p && y < p
    ensures a * p + x < b * p + y <==> a < b || (a == b && x < y)
  {
    if a < b {
      MulMono(a + 1, b, p);
    } else if b < a {
      MulMono(b + 1, a, p);
    }
  }
}

/** Ids (idx): 41 bits of milliseconds since the epoch, then the instance number, then a sequence, 12 bits together. */
module Ids {
  import opened Bits
  import opened Numbers

  const LOW_BITS := 12
  const TIME_BITS := 41
  const DEFAULT_INSTANCE_BITS := 5

  /** The bits of the instance number; Validate accepts 1 to 10. */
  predicate BitsOk(bits: nat) { 1 <= bits <= 10 }

  function MaxInstance(bits: nat): int { Pow2(bits) - 1 }

  function MaxSeq(bits: nat): int
    requires BitsOk(bits)
  {
    Pow2(LOW_BITS - bits) - 1
  }

  datatype Stamp = Stamp(ms: nat, no: nat)

  function Pack(bits: nat, ms: nat, instance: nat, no: nat): nat
    requires BitsOk(bits)
  {
    Or(Or(Shl(ms, LOW_BITS), Shl(instance, LOW_BITS - bits)), no)
  }

  predicate Fits(bits: nat, instance: nat, no: nat)
    requires BitsOk(bits)
  {
    instance <= MaxInstance(bits) && no <= MaxSeq(bits)
  }

  function Millis(id: nat): nat { Shr(id, LOW_BITS) }

  function Instance(id: nat, instanceBits: nat): nat
    requires instanceBits == 0 || BitsOk(instanceBits)
  {
    var bits := if instanceBits == 0 then DEFAULT_INSTANCE_BITS else instanceBits;
    And(Shr(id, LOW_BITS - bits), Pow2(bits) - 1)
  }

  lemma LowSum(bits: nat, instance: nat, no: nat)
    requires BitsOk(bits) && Fits(bits, instance, no)
    ensures Shl(instance, LOW_BITS - bits) + no < Pow2(LOW_BITS)
  {
    hide Pow2;
    var s := Pow2(LOW_BITS - bits);
    Pow2Adds(bits, LOW_BITS - bits);
    MulMono(instance + 1, Pow2(bits), s);
  }

  lemma {:induction false} OrAssoc(a: nat, b: nat, c: nat)
    ensures Or(Or(a, b), c) == Or(a, Or(b, c))
    decreases a + b + c
  {
    if a + b + c > 0 {
      OrAssoc(a / 2, b / 2, c / 2);
      OrParts(a, b);
      OrParts(b, c);
    }
  }

  lemma OrParts(a: nat, b: nat)
    ensures Or(a, b) / 2 == Or(a / 2, b / 2)
    ensures Or(a, b) % 2 == 1 <==> a % 2 == 1 || b % 2 == 1
    ensures a + b > 0 <==> Or(a, b) > 0
  {
    OrPositive(a, b);
  }

  lemma {:induction false} OrPositive(a: nat, b: nat)
    ensures a + b > 0 <==> Or(a, b) > 0
    decreases a + b
  {
    if a + b > 0 {
      OrPositive(a / 2, b / 2);
    }
  }

  /** The three fields side by side. */
  lemma PackIsSum(bits: nat, ms: nat, instance: nat, no: nat)
    requires BitsOk(bits) && Fits(bits, instance, no)
    ensures Pack(bits, ms, instance, no) == ms * Pow2(LOW_BITS) + (instance * Pow2(LOW_BITS - bits) + no)
  {
    LowSum(bits, instance, no);
    OrAssoc(Shl(ms, LOW_BITS), Shl(instance, LOW_BITS - bits), no);
    OrIsSum(instance, LOW_BITS - bits, no);
    OrIsSum(ms, LOW_BITS, Shl(instance, LOW_BITS - bits) + no);
  }

  /** Time and Instance recover what was packed, for every split of the low bits, 0 standing for the default. */
  lemma Unpacks(bits: nat, ms: nat, instance: nat, no: nat)
    requires BitsOk(bits) && Fits(bits, instance, no)
    ensures var id := Pack(bits, ms, instance, no);
            && Millis(id) == ms && Instance(id, bits) == instance
            && (bits == DEFAULT_INSTANCE_BITS ==> Instance(id, 0) == instance)
            && id % Pow2(LOW_BITS - bits) == no
  {
    hide Pow2, Pack, Or, And;
    var id, s, t := Pack(bits, ms, instance, no), Pow2(LOW_BITS - bits), Pow2(bits);
    PackIsSum(bits, ms, instance, no);
    LowSum(bits, instance, no);
    DivModUnique(id, Pow2(LOW_BITS), ms, instance * s + no);
    Pow2Adds(bits, LOW_BITS - bits);
    Regroup(ms, t, s, instance, no);
    DivModUnique(id, s, ms * t + instance, no);
    DivModUnique(ms * t + instance, t, ms, instance);
    AndMask(ms * t + instance, bits);
  }

  lemma Regroup(ms: nat, t: nat, s: nat, n: nat, no: nat)
    ensures ms * (t * s) + (n * s + no) == (ms * t + n) * s + no
  {
    assert ms * (t * s) == (ms * t) * s;
  }

  lemma PackIsInjective(bits: nat, ms: nat, n: nat, no: nat, ms': nat, n': nat, no': nat)
    requires BitsOk(bits) && Fits(bits, n, no) && Fits(bits, n', no')
    requires Pack(bits, ms, n, no) == Pack(bits, ms', n', no')
    ensures ms == ms' && n == n' && no == no'
  {
    Unpacks(bits, ms, n, no);
    Unpacks(bits, ms', n', no');
  }

  /** Below 2^53, exact in a JSON number, exactly while the milliseconds fit 41 bits. */
  lemma FitsInJson(bits: nat, ms: nat, instance: nat, no: nat)
    requires BitsOk(bits) && Fits(bits, instance, no)
    ensures Pack(bits, ms, instance, no) < Pow2(TIME_BITS + LOW_BITS) <==> ms < Pow2(TIME_BITS)
  {
    hide Pow2, Pack;
    PackIsSum(bits, ms, instance, no);
    LowSum(bits, instance, no);
    Pow2Adds(TIME_BITS, LOW_BITS);
    MixedOrder(ms, instance * Pow2(LOW_BITS - bits) + no, Pow2(TIME_BITS), 0, Pow2(LOW_BITS));
  }

  predicate Before(a: Stamp, b: Stamp) { a.ms < b.ms || (a.ms == b.ms && a.no < b.no) }

  /** For one instance number the order of ids is the order of their stamps. */
  lemma PackIsMonotone(bits: nat, n: nat, a: Stamp, b: Stamp)
    requires BitsOk(bits) && Fits(bits, n, a.no) && Fits(bits, n, b.no)
    ensures Pack(bits, a.ms, n, a.no) < Pack(bits, b.ms, n, b.no) <==> Before(a, b)
  {
    hide Pow2, Pack;
    PackIsSum(bits, a.ms, n, a.no);
    PackIsSum(bits, b.ms, n, b.no);
    LowSum(bits, n, a.no);
    LowSum(bits, n, b.no);
    var s := Pow2(LOW_BITS - bits);
    MixedOrder(a.ms, n * s + a.no, b.ms, n * s + b.no, Pow2(LOW_BITS));
  }

  // ------------------------------------------------------------------
  // The next stamp
  // ------------------------------------------------------------------

  /** `now` is the first reading of the clock, which may lie anywhere; `later` the first reading past the last
      stamp, needed only when the sequence of its millisecond is used up. */
  function NextStamp(bits: nat, last: Stamp, now: int, later: nat): Stamp
    requires BitsOk(bits)
  {
    if now > last.ms then Stamp(now, 0)
    else if last.no < MaxSeq(bits) then Stamp(last.ms, last.no + 1)
    else Stamp(later, 0)
  }

  lemma NextIsLater(bits: nat, last: Stamp, now: int, later: nat)
    requires BitsOk(bits) && last.ms < later
    ensures Before(last, NextStamp(bits, last, now, later)) && NextStamp(bits, last, now, later).no <= MaxSeq(bits)
  {
    assert Pow2(LOW_BITS - bits) >= 1;
  }
}
