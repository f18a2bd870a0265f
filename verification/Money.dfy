/** Splitting money (moneyx): amounts are whole numbers of a currency's smallest unit. A quotient is what the decimal
    library makes of it: rounded half away from zero at 16 decimals, then cut to the currency's scale. */
module Money {
  import opened Options
  import opened Numbers

  /** units of 10^-scale of the currency. */
  datatype Money = Money(units: int, currency: string)

  type Scales = map<string, nat>

  /** Unknown codes have two decimals. */
  function Scale(scales: Scales, currency: string): nat { if currency in scales then scales[currency] else 2 }

  const DIVISION_PRECISION := 16

  function Pow10(k: nat): (p: nat)
    ensures p >= 1
  {
    if k == 0 then 1 else 10 * Pow10(k - 1)
  }

  function Abs(x: int): nat { if x < 0 then -x else x }

  function Sign(x: int): int { if x < 0 then -1 else 1 }

  /** num / den rounded to a whole number, half up. */
  function RoundHalf(num: nat, den: nat): nat
    requires den > 0
  {
    if 2 * (num % den) < den then num / den else num / den + 1
  }

  /** x units divided by den, in units: at 16 decimals first, then cut. With more than 16 decimals the cut does
      nothing. */
  function Quotient(x: nat, den: nat, scale: nat): nat
    requires den > 0
  {
    if scale <= DIVISION_PRECISION then Quotient16(x, den, Pow10(DIVISION_PRECISION - scale))
    else QuotientFine(x, den, Pow10(scale - DIVISION_PRECISION))
  }

  function Quotient16(x: nat, den: nat, p: nat): nat
    requires den > 0 && p > 0
  {
    RoundHalf(x * p, den) / p
  }

  function QuotientFine(x: nat, den: nat, f: nat): nat
    requires den > 0 && f > 0
  {
    MulPos(den, f);
    RoundHalf(x, den * f) * f
  }

  lemma MulPos(a: nat, b: nat)
    requires a > 0 && b > 0
    ensures a * b > 0
  {
  }

  /** a * w / total with the signs of its factors. */
  function Share(a: int, w: nat, total: int, scale: nat): int
    requires total != 0
  {
    Sign(a) * Sign(total) * Quotient(Abs(a) * w, Abs(total), scale)
  }

  const TWO_63: int := 0x8000_0000_0000_0000

  /** A sum in int64. */
  function Wrap64(x: int): int { (x + TWO_63) % (2 * TWO_63) - TWO_63 }

  predicate IsInt64(x: int) { -TWO_63 <= x < TWO_63 }

  function Sum(xs: seq<int>): int { if xs == [] then 0 else Sum(xs[..|xs| - 1]) + xs[|xs| - 1] }

  lemma SumNext(xs: seq<int>, k: nat)
    requires k < |xs|
    ensures Sum(xs[..k + 1]) == Sum(xs[..k]) + xs[k]
  {
    assert xs[..k + 1][..k] == xs[..k];
  }

  /** The remainder, one unit at a time, to the first parts; how many is read as an int64. */
  function Given(rem: int, n: nat): nat {
    var units := Wrap64(Abs(rem));
    if units <= 0 then 0 else if units < n then units else n
  }

  function Corrected(parts: seq<int>, rem: int): seq<int> {
    seq(|parts|, i requires 0 <= i < |parts| => parts[i] + if i < Given(rem, |parts|) then Sign(rem) else 0)
  }

  function SplitBase(a: int, n: nat, scale: nat): int
    requires n > 0
  {
    Share(a, 1, n, scale)
  }

  function SplitParts(a: int, n: nat, scale: nat): seq<int>
    requires n > 0
  {
    var base := SplitBase(a, n, scale);
    Corrected(seq(n, _ => base), a - base * n)
  }

  function Shares(a: int, ws: seq<int>, total: int, scale: nat): seq<int>
    requires total != 0 && forall i :: 0 <= i < |ws| ==> ws[i] >= 0
  {
    seq(|ws|, i requires 0 <= i < |ws| => Share(a, ws[i], total, scale))
  }

  function AllocateParts(a: int, ws: seq<int>, total: int, scale: nat): seq<int>
    requires total != 0 && forall i :: 0 <= i < |ws| ==> ws[i] >= 0
  {
    var shares := Shares(a, ws, total, scale);
    Corrected(shares, a - Sum(shares))
  }

  // ------------------------------------------------------------------
  // The correction
  // ------------------------------------------------------------------

  lemma {:induction false} CorrectedSum(parts: seq<int>, rem: int, k: nat)
    requires k <= |parts|
    ensures var g := Given(rem, |parts|);
            Sum(Corrected(parts, rem)[..k]) == Sum(parts[..k]) + Sign(rem) * (if k < g then k else g)
  {
    CorrectedLength(parts, rem);
    if k > 0 {
      hide Corrected, Sum, Given, Sign;
      CorrectedSum(parts, rem, k - 1);
      SumNext(parts, k - 1);
      SumNext(Corrected(parts, rem), k - 1);
      CorrectedAt(parts, rem, k - 1);
      OneMoreSign(Sign(rem), k - 1, Given(rem, |parts|));
    } else {
      assert parts[..0] == [] && Corrected(parts, rem)[..0] == [];
    }
  }

  lemma OneMoreSign(sign: int, k: nat, g: nat)
    ensures sign * (if k + 1 < g then k + 1 else g) ==
            sign * (if k < g then k else g) + if k < g then sign else 0
  {
  }

  lemma CorrectedAt(parts: seq<int>, rem: int, i: nat)
    requires i < |parts|
    ensures |Corrected(parts, rem)| == |parts|
    ensures Corrected(parts, rem)[i] == if i < Given(rem, |parts|) then parts[i] + Sign(rem) else parts[i]
  {
  }

  lemma CorrectedLength(parts: seq<int>, rem: int)
    ensures |Corrected(parts, rem)| == |parts|
  {
  }

  lemma GivenIsAllIff(rem: int, n: nat)
    requires n < TWO_63
    ensures Given(rem, n) <= n
    ensures Given(rem, n) == Abs(rem) <==> Abs(rem) <= n
  {
    if Abs(rem) <= n {
      assert Wrap64(Abs(rem)) == Abs(rem);
    }
  }

  /** The loop hands out the whole remainder exactly when there are enough parts for it. */
  lemma CorrectionIsExactIff(parts: seq<int>, a: int)
    requires |parts| < TWO_63
    ensures Sum(Corrected(parts, a - Sum(parts))) == a <==> Abs(a - Sum(parts)) <= |parts|
  {
    hide Given, Sum, Corrected;
    var rem := a - Sum(parts);
    GivenIsAllIff(rem, |parts|);
    CorrectedSum(parts, rem, |parts|);
    CorrectedLength(parts, rem);
    assert Corrected(parts, rem)[..|parts|] == Corrected(parts, rem) && parts[..|parts|] == parts;
  }

  lemma {:induction false} ConstantSum(base: int, n: nat)
    ensures Sum(seq(n, _ => base)) == base * n
  {
    if n > 0 {
      ConstantSum(base, n - 1);
      assert seq(n, _ => base)[..n - 1] == seq(n - 1, _ => base);
    }
  }

  // ------------------------------------------------------------------
  // The quotient
  // ------------------------------------------------------------------

  lemma RoundHalfIsNear(num: nat, den: nat)
    requires den > 0
    ensures 2 * num - den < 2 * (RoundHalf(num, den) * den) <= 2 * num + den
  {
    var q, r := num / den, num % den;
    assert num == q * den + r;
    assert (q + 1) * den == q * den + den;
  }

  /** Cut at the scale the quotient is short of the share by less than a unit, and past it by at most half of the
      sixteenth decimal. */
  lemma QuotientIsNear(x: nat, den: nat, p: nat)
    requires den > 0 && p > 0
    ensures var u := Quotient16(x, den, p); (u + 1) * den > x && 2 * p * (u * den - x) <= den
  {
    hide Quotient16;
    var q := RoundedThenCut(x, den, p);
    var u := Quotient16(x, den, p);
    CutIsShort(x, den, p, q, u);
    CutIsNotPast(x, den, p, q, u);
  }

  lemma RoundedThenCut(x: nat, den: nat, p: nat) returns (q: nat)
    requires den > 0 && p > 0
    ensures var u := Quotient16(x, den, p); u * p <= q && q + 1 <= (u + 1) * p
    ensures 2 * (x * p) - den < 2 * (q * den) <= 2 * (x * p) + den
  {
    hide RoundHalf;
    q := RoundHalf(x * p, den);
    RoundHalfIsNear(x * p, den);
    DivBounds(q, p);
  }

  lemma DivBounds(q: nat, p: nat)
    requires p > 0
    ensures q / p * p <= q < (q / p + 1) * p
  {
  }

  lemma CutIsShort(x: nat, den: nat, p: nat, q: nat, u: nat)
    requires p > 0 && q + 1 <= (u + 1) * p && 2 * (x * p) < 2 * (q * den) + den
    ensures (u + 1) * den > x
  {
    MulMono(q + 1, (u + 1) * p, den);
    Regroup(u + 1, p, den);
    assert (q + 1) * den == q * den + den;
    var a := (u + 1) * den;
    assert a * p > x * p;
    if a <= x {
      MulMono(a, x, p);
    }
  }

  lemma CutIsNotPast(x: nat, den: nat, p: nat, q: nat, u: nat)
    requires u * p <= q && 2 * (q * den) <= 2 * (x * p) + den
    ensures 2 * p * (u * den - x) <= den
  {
    MulMono(u * p, q, den);
    Regroup(u, p, den);
    Distributes(p, u * den, x);
  }

  lemma Distributes(p: nat, a: nat, x: nat)
    ensures 2 * p * (a - x) == 2 * (a * p) - 2 * (x * p)
  {
  }

  lemma Regroup(u: nat, p: nat, den: nat)
    ensures u * p * den == (u * den) * p
  {
  }

  /** No quotient of a small divisor is rounded past its share. */
  lemma NotPast(x: nat, den: nat, p: nat)
    requires 0 < den < 2 * p
    ensures Quotient16(x, den, p) * den <= x
  {
    hide Quotient16;
    QuotientIsNear(x, den, p);
    TooFar(Quotient16(x, den, p) * den - x, den, p);
  }

  lemma TooFar(d: int, den: nat, p: nat)
    requires den < 2 * p && 2 * p * d <= den
    ensures d <= 0
  {
    if d > 0 {
      MulMono(1, d, 2 * p);
    }
  }

  lemma HalfOfDen(d: int, den: nat, p: nat)
    requires p > 0 && 2 * p * d <= den
    ensures 2 * d <= den
  {
    if d > 0 {
      MulMono(1, p, 2 * d);
    }
  }

  /** What is left over of x, short of a unit, and past it by half a unit at most. */
  lemma QuotientFacts(x: nat, den: nat, scale: nat)
    requires den > 0 && scale <= DIVISION_PRECISION
    ensures var d: int := x - Quotient(x, den, scale) * den;
            d < den && 0 <= den + 2 * d && (den < 2 * Pow10(DIVISION_PRECISION - scale) ==> d >= 0)
  {
    hide Pow10, Quotient16;
    var p := Pow10(DIVISION_PRECISION - scale);
    var u := Quotient16(x, den, p);
    QuotientIsNear(x, den, p);
    HalfOfDen(u * den - x, den, p);
    if den < 2 * p {
      NotPast(x, den, p);
    }
    assert (u + 1) * den == u * den + den;
  }

  // ------------------------------------------------------------------
  // Split
  // ------------------------------------------------------------------

  /** The parts sum to the amount exactly when rounding leaves no more units over than there are parts. */
  lemma SplitIsExactIff(a: int, n: nat, scale: nat)
    requires 0 < n < TWO_63
    ensures Sum(SplitParts(a, n, scale)) == a <==> Abs(a - SplitBase(a, n, scale) * n) <= n
  {
    var base := SplitBase(a, n, scale);
    var parts := seq(n, _ => base);
    ConstantSum(base, n);
    CorrectionIsExactIff(parts, a);
  }

  lemma SplitIsNear(a: int, n: nat, scale: nat)
    requires n > 0 && scale <= DIVISION_PRECISION
    ensures Abs(a - SplitBase(a, n, scale) * n) < n
  {
    hide Quotient, Pow10;
    QuotientFacts(Abs(a), n, scale);
    assert Abs(a) * 1 == Abs(a);
    var u := Quotient(Abs(a), n, scale);
    assert SplitBase(a, n, scale) == Sign(a) * u;
    SignedNear(a, u, n);
  }

  lemma SignedNear(a: int, u: nat, n: nat)
    requires n > 0 && Abs(a) - u * n < n && 0 <= n + 2 * (Abs(a) - u * n)
    ensures Abs(a - Sign(a) * u * n) < n
  {
    assert Sign(a) * u * n == Sign(a) * (u * n);
  }

  /** For every currency of up to 16 decimals the parts add up, for every amount of either sign. */
  lemma SplitIsExact(a: int, n: nat, scale: nat)
    requires 0 < n < TWO_63 && scale <= DIVISION_PRECISION
    ensures |SplitParts(a, n, scale)| == n && Sum(SplitParts(a, n, scale)) == a
  {
    SplitIsNear(a, n, scale);
    SplitIsExactIff(a, n, scale);
  }

  /** Any two parts differ by a unit at most, the odd ones first. */
  lemma SplitIsEven(a: int, n: nat, scale: nat, i: nat, j: nat)
    requires n > 0 && i <= j < n
    ensures |SplitParts(a, n, scale)| == n
    ensures var parts, rem := SplitParts(a, n, scale), a - SplitBase(a, n, scale) * n;
            parts[i] == parts[j] || parts[i] == parts[j] + Sign(rem)
  {
  }

  /** Beyond 16 decimals the law fails: 149 of the smallest unit in one part come out as 101. */
  lemma FineSplitLosesUnits()
    ensures SplitParts(149, 1, 18) == [101]
  {
    assert Pow10(2) == 10 * Pow10(1);
    assert RoundHalf(149, 1 * 100) == 1;
    assert Quotient(149, 1, 18) == 100;
    assert SplitBase(149, 1, 18) == 100;
    assert SplitParts(149, 1, 18) == Corrected(seq(1, _ => 100), 49);
    assert Given(49, 1) == 1;
    CorrectedAt(seq(1, _ => 100), 49, 0);
  }

  // ------------------------------------------------------------------
  // Allocate
  // ------------------------------------------------------------------

  predicate Weights(ws: seq<int>) { forall i :: 0 <= i < |ws| ==> 0 <= ws[i] < TWO_63 }

  /** The total as the loop adds it up, in int64. */
  function Total(ws: seq<int>): int { if ws == [] then 0 else Wrap64(Total(ws[..|ws| - 1]) + ws[|ws| - 1]) }

  lemma TotalOfNone()
    ensures Total([]) == 0 && Sum([]) == 0
  {
  }

  lemma TotalNext(ws: seq<int>, k: nat)
    requires k < |ws|
    ensures Total(ws[..k + 1]) == Wrap64(Total(ws[..k]) + ws[k])
  {
    assert ws[..k + 1][..k] == ws[..k];
  }

  lemma {:induction false} TotalIsSum(ws: seq<int>)
    requires Weights(ws) && Sum(ws) < TWO_63
    ensures Total(ws) == Sum(ws) >= 0
  {
    if ws != [] {
      SumGrows(ws[..|ws| - 1]);
      TotalIsSum(ws[..|ws| - 1]);
    }
  }

  lemma {:induction false} SumGrows(ws: seq<int>)
    requires Weights(ws)
    ensures Sum(ws) >= 0
  {
    if ws != [] {
      SumGrows(ws[..|ws| - 1]);
    }
  }

  /** The shares add up to the amount, after the correction, exactly when they leave no more units over than there are
      parts. */
  lemma AllocateIsExactIff(a: int, ws: seq<int>, total: int, scale: nat)
    requires total != 0 && Weights(ws) && |ws| < TWO_63
    ensures Sum(AllocateParts(a, ws, total, scale)) == a <==> Abs(a - Sum(Shares(a, ws, total, scale))) <= |ws|
  {
    CorrectionIsExactIff(Shares(a, ws, total, scale), a);
  }

  /** What a share leaves over, counted in the direction of the amount. */
  function Short(a: int, w: nat, share: int, total: nat): int { (a * w - share * total) * Sign(a) }

  lemma ShortIsMagnitude(a: int, w: nat, u: nat, total: nat)
    ensures Short(a, w, Sign(a) * u, total) == Abs(a) * w - u * total
  {
    if a < 0 {
      assert a * w == -1 * (Abs(a) * w) && (-1 * u) * total == -1 * (u * total);
    }
  }

  lemma ShareIsNear(a: int, w: nat, total: nat, scale: nat)
    requires total > 0 && scale <= DIVISION_PRECISION
    ensures var d := Short(a, w, Share(a, w, total, scale), total);
            d < total && 0 <= total + 2 * d && (total < 2 * Pow10(DIVISION_PRECISION - scale) ==> d >= 0)
  {
    hide Quotient, Pow10, Short;
    QuotientFacts(Abs(a) * w, total, scale);
    var u := Quotient(Abs(a) * w, total, scale);
    assert Share(a, w, total, scale) == Sign(a) * u;
    ShortIsMagnitude(a, w, u, total);
  }

  /** The same for the first k shares together. */
  function ShortSum(a: int, ws: seq<int>, shares: seq<int>, total: nat, k: nat): int
    requires k <= |ws| == |shares|
  {
    (a * Sum(ws[..k]) - Sum(shares[..k]) * total) * Sign(a)
  }

  lemma ShortSumNext(a: int, ws: seq<int>, shares: seq<int>, total: nat, k: nat)
    requires k < |ws| == |shares| && ws[k] >= 0
    ensures ShortSum(a, ws, shares, total, k + 1) ==
            ShortSum(a, ws, shares, total, k) + Short(a, ws[k], shares[k], total)
  {
    SumNext(ws, k);
    SumNext(shares, k);
    hide Sum;
    AddStep(a, Sum(ws[..k]), ws[k], Sum(shares[..k]), shares[k], total, Sign(a));
  }

  lemma AddStep(a: int, w: int, w': int, s: int, s': int, total: int, sign: int)
    ensures (a * (w + w') - (s + s') * total) * sign == (a * w - s * total) * sign + (a * w' - s' * total) * sign
  {
  }

  lemma NoneShort(a: int, ws: seq<int>, shares: seq<int>, total: nat)
    requires |ws| == |shares|
    ensures ShortSum(a, ws, shares, total, 0) == 0
  {
    assert a * 0 - 0 * total == 0;
  }

  lemma {:induction false} SharesAreNear(a: int, ws: seq<int>, total: nat, scale: nat, k: nat)
    requires total > 0 && scale <= DIVISION_PRECISION && Weights(ws) && k <= |ws|
    ensures var d := ShortSum(a, ws, Shares(a, ws, total, scale), total, k);
            d <= k * total && 0 <= k * total + 2 * d && (total < 2 * Pow10(DIVISION_PRECISION - scale) ==> d >= 0)
  {
    hide Sum, Share, ShortSum, Short, Pow10;
    if k == 0 {
      NoneShort(a, ws, Shares(a, ws, total, scale), total);
    } else {
      var shares := Shares(a, ws, total, scale);
      SharesAreNear(a, ws, total, scale, k - 1);
      ShareIsNear(a, ws[k - 1], total, scale);
      assert shares[k - 1] == Share(a, ws[k - 1], total, scale);
      ShortSumNext(a, ws, shares, total, k - 1);
      MulNext(k - 1, total);
    }
  }

  lemma MulNext(k: nat, d: nat)
    ensures (k + 1) * d == k * d + d
  {
  }

  /** All shares together fall short by the remainder. */
  lemma ShortOfAll(a: int, ws: seq<int>, shares: seq<int>)
    requires |ws| == |shares| && Sum(ws) >= 0
    ensures ShortSum(a, ws, shares, Sum(ws), |ws|) == (a - Sum(shares)) * Sign(a) * Sum(ws)
  {
    hide Sum, Sign;
    assert ws[..|ws|] == ws && shares[..|ws|] == shares;
    Gathers(a, Sum(ws), Sum(shares), Sign(a));
  }

  lemma Gathers(a: int, t: int, s: int, sign: int)
    ensures (a * t - s * t) * sign == (a - s) * sign * t
  {
    assert a * t - s * t == (a - s) * t;
  }

  /** When the weights' total fits int64 and the currency has up to 16 decimals the parts add up, and the correction
      never runs out of parts. */
  lemma AllocateIsExact(a: int, ws: seq<int>, scale: nat)
    requires Weights(ws) && 0 < Sum(ws) < TWO_63 && |ws| < TWO_63 && scale <= DIVISION_PRECISION
    ensures Total(ws) == Sum(ws)
    ensures var parts := AllocateParts(a, ws, Total(ws), scale); |parts| == |ws| && Sum(parts) == a
    ensures Abs(a - Sum(Shares(a, ws, Total(ws), scale))) <= |ws|
  {
    TotalIsSum(ws);
    hide Sum, Share, ShortSum, Pow10, Corrected, Total;
    var total, shares := Sum(ws), Shares(a, ws, Sum(ws), scale);
    SharesAreNear(a, ws, total, scale, |ws|);
    ShortOfAll(a, ws, shares);
    RemainderFits(a - Sum(shares), Sign(a), total, |ws|);
    AllocateIsExactIff(a, ws, total, scale);
  }

  lemma RemainderFits(rem: int, sign: int, total: nat, n: nat)
    requires total > 0 && (sign == 1 || sign == -1)
    requires rem * sign * total <= n * total && 0 <= n * total + 2 * (rem * sign * total)
    ensures Abs(rem) <= n
  {
    var r := rem * sign;
    assert (-2 * r) * total == -2 * (r * total);
    Cancels(r, n, total);
    Cancels(-2 * r, n, total);
  }

  lemma Cancels(a: int, b: int, d: nat)
    requires d > 0 && a * d <= b * d
    ensures a <= b
  {
    if b < a {
      assert (b + 1) * d <= a * d by {
        MulMono(0, a - b - 1, d);
      }
    }
  }

  /** A part is within a unit of its exact share exactly when it got no unit of the remainder, or the unit pointed
      towards the share: rounding at 16 decimals must not have taken it past already. */
  lemma AllocateWithinOneIff(a: int, ws: seq<int>, total: nat, scale: nat, i: nat)
    requires total > 0 && scale <= DIVISION_PRECISION && Weights(ws) && i < |ws|
    ensures var share, rem := Share(a, ws[i], total, scale), a - Sum(Shares(a, ws, total, scale));
            |AllocateParts(a, ws, total, scale)| == |ws|
            && (Abs(AllocateParts(a, ws, total, scale)[i] * total - a * ws[i]) <= total <==>
                i >= Given(rem, |ws|) || Sign(rem) * (a * ws[i] - share * total) >= 0)
  {
    hide Share, Given, Pow10, Sum;
    var share, rem := Share(a, ws[i], total, scale), a - Sum(Shares(a, ws, total, scale));
    ShareIsNear(a, ws[i], total, scale);
    NudgedIff(a, ws[i], share, total, Sign(rem));
    assert AllocateParts(a, ws, total, scale)[i] == share + if i < Given(rem, |ws|) then Sign(rem) else 0;
  }

  lemma NudgedIff(a: int, w: int, share: int, total: nat, sign: int)
    requires total > 0 && w >= 0 && (sign == 1 || sign == -1)
    requires Short(a, w, share, total) < total && 0 <= total + 2 * Short(a, w, share, total)
    ensures Abs(share * total - a * w) <= total
    ensures Abs((share + sign) * total - a * w) <= total <==> sign * (a * w - share * total) >= 0
  {
    var x, y := a * w, share * total;
    assert (share + sign) * total == y + sign * total;
  }

  /** No weight total below twice 10^(16 - scale) has that trouble: for two decimals, below 2 * 10^14. */
  lemma AllocateWithinOne(a: int, ws: seq<int>, scale: nat, i: nat)
    requires Weights(ws) && 0 < Sum(ws) < TWO_63 && |ws| < TWO_63 && i < |ws| && scale <= DIVISION_PRECISION
    requires Sum(ws) < 2 * Pow10(DIVISION_PRECISION - scale)
    ensures |AllocateParts(a, ws, Sum(ws), scale)| == |ws|
    ensures Abs(AllocateParts(a, ws, Sum(ws), scale)[i] * Sum(ws) - a * ws[i]) <= Sum(ws)
  {
    hide Share, Pow10, Sum, Given, Short, ShortSum, Sign, AllocateParts;
    var total, shares := Sum(ws), Shares(a, ws, Sum(ws), scale);
    var rem := a - Sum(shares);
    SharesAreNear(a, ws, total, scale, |ws|);
    ShortOfAll(a, ws, shares);
    ShareIsNear(a, ws[i], total, scale);
    NothingGiven(|ws|);
    TowardsShare(a, rem, ws[i], shares[i], total);
    AllocateWithinOneIff(a, ws, total, scale, i);
  }

  lemma TowardsShare(a: int, rem: int, w: int, share: int, total: nat)
    requires total > 0 && w >= 0 && rem * Sign(a) * total >= 0 && Short(a, w, share, total) >= 0
    ensures rem == 0 || Sign(rem) * (a * w - share * total) >= 0
  {
    Cancels(0, rem * Sign(a), total);
  }

  lemma NothingGiven(n: nat)
    ensures Given(0, n) == 0
  {
  }

  /** At 16 decimals the second law fails: 2 units by weights 5 4 4 4 3 give the first part 2, its exact share is a
      half. */
  lemma PastItsShare()
    ensures AllocateParts(2, [5, 4, 4, 4, 3], 20, 16) == [2, 0, 0, 0, 0]
    ensures Abs(AllocateParts(2, [5, 4, 4, 4, 3], 20, 16)[0] * 20 - 2 * 5) > 20
  {
    var ws := [5, 4, 4, 4, 3];
    assert RoundHalf(10 * 1, 20) == 1 && RoundHalf(8 * 1, 20) == 0 && RoundHalf(6 * 1, 20) == 0;
    assert forall x :: x in [10, 8, 6] ==> Quotient(x, 20, 16) == RoundHalf(x * 1, 20);
    assert Shares(2, ws, 20, 16) == [1, 0, 0, 0, 0];
    Sum5(1, 0, 0, 0, 0);
    GivenIsAllIff(1, 5);
    hide Share, Quotient, Sum, Given;
    assert AllocateParts(2, ws, 20, 16) == Corrected([1, 0, 0, 0, 0], 1);
    forall i | 0 <= i < 5 ensures Corrected([1, 0, 0, 0, 0], 1)[i] == [2, 0, 0, 0, 0][i] {
      CorrectedAt([1, 0, 0, 0, 0], 1, i);
    }
  }

  lemma Sum5(a: int, b: int, c: int, d: int, e: int)
    ensures Sum([a, b, c, d, e]) == a + b + c + d + e
  {
    var s := [a, b, c, d, e];
    SumNext(s, 0);
    SumNext(s, 1);
    SumNext(s, 2);
    SumNext(s, 3);
    SumNext(s, 4);
    assert s[..5] == s;
  }

  /** A total past int64 wraps: 100 units by weights 2^62, 2^62 and 1 come back as -97. */
  lemma WrappedTotal()
    ensures var ws := [TWO_63 / 2, TWO_63 / 2, 1];
            Total(ws) < 0 && AllocateParts(100, ws, Total(ws), 2) == [-49, -49, 1]
  {
    hide Shares, Total, Given, Sum;
    var ws := [TWO_63 / 2, TWO_63 / 2, 1];
    WrappedSum();
    WrappedShares();
    Sum3(-50, -50, 0);
    AllGiven(200, 3);
    assert AllocateParts(100, ws, 1 - TWO_63, 2) == Corrected([-50, -50, 0], 200);
    forall i | 0 <= i < 3 ensures Corrected([-50, -50, 0], 200)[i] == [-49, -49, 1][i] {
      CorrectedAt([-50, -50, 0], 200, i);
    }
  }

  lemma WrappedSum()
    ensures Total([TWO_63 / 2, TWO_63 / 2, 1]) == 1 - TWO_63
  {
    hide Total;
    Total3(TWO_63 / 2, TWO_63 / 2, 1);
  }

  lemma AllGiven(rem: int, n: nat)
    requires n <= Abs(rem) < TWO_63
    ensures Given(rem, n) == n
  {
  }

  lemma WrappedShares()
    ensures Shares(100, [TWO_63 / 2, TWO_63 / 2, 1], 1 - TWO_63, 2) == [-50, -50, 0]
  {
    WrappedQuotients();
    hide Quotient;
  }

  lemma WrappedQuotients()
    ensures Quotient(100 * (TWO_63 / 2), TWO_63 - 1, 2) == 50 && Quotient(100 * 1, TWO_63 - 1, 2) == 0
  {
    var h, p := TWO_63 / 2, Pow10(14);
    assert p == 100_000_000_000_000 by {
      assert Pow10(7) == 10_000_000;
      assert Pow10(14) == 10 * 10 * 10 * 10 * 10 * 10 * 10 * Pow10(7);
    }
    hide Pow10;
    assert RoundHalf(100 * h * p, TWO_63 - 1) == 50 * p;
    assert RoundHalf(100 * 1 * p, TWO_63 - 1) == 0;
  }

  lemma Sum3(a: int, b: int, c: int)
    ensures Sum([a, b, c]) == a + b + c
  {
    var s := [a, b, c];
    SumNext(s, 0);
    SumNext(s, 1);
    SumNext(s, 2);
    assert s[..3] == s;
  }

  lemma Total3(a: int, b: int, c: int)
    ensures Total([a, b, c]) == Wrap64(Wrap64(Wrap64(a) + b) + c)
  {
    var s := [a, b, c];
    assert s[..2] == [a, b] && [a, b][..1] == [a] && [a][..0] == [];
    assert Total([a]) == Wrap64(a);
    assert Total([a, b]) == Wrap64(Total([a]) + b);
  }

  // ------------------------------------------------------------------
  // The loops
  // ------------------------------------------------------------------

  /** The correction, in place, one part after another. */
  method Correct(out: array<int>, rem: int)
    requires out.Length < TWO_63
    modifies out
    ensures out[..] == Corrected(old(out[..]), rem)
  {
    var step, left := 1, rem;
    if left < 0 {
      step, left := -1, -left;
    }
    var units := Wrap64(left);
    var i := 0;
    while i < units && i < out.Length
      invariant 0 <= i <= out.Length && (i == 0 || i <= units)
      invariant forall k :: 0 <= k < out.Length ==> out[k] == old(out[k]) + if k < i then step else 0
    {
      out[i] := out[i] + step;
      i := i + 1;
    }
    assert i == Given(rem, out.Length);
    forall k | 0 <= k < out.Length ensures out[..][k] == Corrected(old(out[..]), rem)[k] {
      CorrectedAt(old(out[..]), rem, k);
    }
    CorrectedLength(old(out[..]), rem);
  }

  /** Error on no parts; otherwise the parts, whatever the amount. */
  method Split(scales: Scales, m: Money, n: int) returns (out: Option<array<int>>)
    requires n < TWO_63
    ensures out.None? <==> n <= 0
    ensures out.Some? ==> fresh(out.value) && out.value[..] == SplitParts(m.units, n, Scale(scales, m.currency))
  {
    if n <= 0 {
      return None;
    }
    var scale := Scale(scales, m.currency);
    var base := Share(m.units, 1, n, scale);
    var rem := m.units - base * n;
    var parts := new int[n];
    for i := 0 to n
      invariant forall k :: 0 <= k < i ==> parts[k] == base
    {
      parts[i] := base;
    }
    assert parts[..] == seq(n, _ => base);
    Correct(parts, rem);
    out := Some(parts);
  }

  /** Errors on a negative weight and on a total of zero, as int64 adds it up. */
  method Allocate(scales: Scales, m: Money, ws: seq<int>) returns (out: Option<array<int>>)
    requires |ws| < TWO_63 && forall i :: 0 <= i < |ws| ==> IsInt64(ws[i])
    ensures out.None? <==> !Weights(ws) || Total(ws) == 0
    ensures out.Some? ==>
              fresh(out.value) && out.value[..] == AllocateParts(m.units, ws, Total(ws), Scale(scales, m.currency))
  {
    hide Total, Wrap64, Sum, Share, Corrected;
    var total := 0;
    TotalOfNone();
    for i := 0 to |ws|
      invariant Weights(ws[..i]) && total == Total(ws[..i])
    {
      if ws[i] < 0 {
        return None;
      }
      TotalNext(ws, i);
      total := Wrap64(total + ws[i]);
    }
    assert ws[..|ws|] == ws;
    if total == 0 {
      return None;
    }
    var scale := Scale(scales, m.currency);
    var parts := new int[|ws|];
    var sum := 0;
    ghost var shares := Shares(m.units, ws, total, scale);
    for i := 0 to |ws|
      invariant forall k :: 0 <= k < i ==> parts[k] == shares[k]
      invariant sum == Sum(shares[..i])
    {
      parts[i] := Share(m.units, ws[i], total, scale);
      SumNext(shares, i);
      sum := sum + parts[i];
    }
    assert parts[..] == shares && shares[..|ws|] == shares;
    Correct(parts, m.units - sum);
    out := Some(parts);
  }
}
