/** Money as text (moneyx): String prints exactly the currency's decimals, Parse reads a decimal and never rounds, and a
    fraction of a unit is resolved in one place only, by the mode the caller names. */
module MoneyText {
  import opened Options
  import Money
  import Numbers

  // ------------------------------------------------------------------
  // Digits
  // ------------------------------------------------------------------

  predicate IsDigit(c: char) { '0' <= c <= '9' }

  predicate AllDigits(s: string) { forall i :: 0 <= i < |s| ==> IsDigit(s[i]) }

  function DigitOf(n: nat): char
    requires n < 10
  {
    '0' + n as char
  }

  function Value(s: string): nat
    requires AllDigits(s)
  {
    if s == [] then 0 else 10 * Value(s[..|s| - 1]) + (s[|s| - 1] - '0') as nat
  }

  /** The last k digits, with leading zeros. */
  function Padded(n: nat, k: nat): (s: string)
    ensures |s| == k && AllDigits(s)
  {
    if k == 0 then [] else Padded(n / 10, k - 1) + [DigitOf(n % 10)]
  }

  function Digits(n: nat): (s: string)
    ensures |s| > 0 && AllDigits(s)
  {
    if n < 10 then [DigitOf(n)] else Digits(n / 10) + [DigitOf(n % 10)]
  }

  lemma ValueNext(s: string, n: nat)
    requires AllDigits(s) && n < 10
    ensures AllDigits(s + [DigitOf(n)]) && Value(s + [DigitOf(n)]) == 10 * Value(s) + n
  {
    assert (s + [DigitOf(n)])[..|s|] == s;
  }

  lemma {:induction false} DigitsValue(n: nat)
    ensures Value(Digits(n)) == n
  {
    if n < 10 {
      ValueNext([], n);
      assert [] + [DigitOf(n)] == [DigitOf(n)];
    } else {
      DigitsValue(n / 10);
      ValueNext(Digits(n / 10), n % 10);
    }
  }

  /** Appending the last k digits of r shifts by k. */
  lemma {:induction false} PaddedValue(s: string, r: nat, k: nat)
    requires AllDigits(s) && r < Money.Pow10(k)
    ensures AllDigits(s + Padded(r, k)) && Value(s + Padded(r, k)) == Value(s) * Money.Pow10(k) + r
  {
    if k == 0 {
      assert s + Padded(r, 0) == s;
    } else {
      var p, head := Money.Pow10(k - 1), s + Padded(r / 10, k - 1);
      PaddedValue(s, r / 10, k - 1);
      ValueNext(head, r % 10);
      assert s + Padded(r, k) == head + [DigitOf(r % 10)];
      Shifted(Value(s), p, r);
    }
  }

  lemma Shifted(v: nat, p: nat, r: nat)
    ensures 10 * (v * p + r / 10) + r % 10 == v * (10 * p) + r
  {
  }

  // ------------------------------------------------------------------
  // Reading
  // ------------------------------------------------------------------

  /** value * 10^exp */
  datatype Decimal = Decimal(value: int, exp: int)

  datatype Error = BadAmount | TooManyDecimals

  datatype Parsed = Ok(units: int) | Err(error: Error)

  function IndexOf(s: string, cs: set<char>): (i: nat)
    ensures i <= |s| && (i < |s| ==> s[i] in cs) && forall j :: 0 <= j < i ==> s[j] !in cs
  {
    if s == [] || s[0] in cs then 0 else 1 + IndexOf(s[1..], cs)
  }

  /** An optional sign and at least one digit. */
  function ParseInt(s: string): Option<int> {
    if s == [] then None
    else if s[0] == '-' && |s| > 1 && AllDigits(s[1..]) then Some(-(Value(s[1..]) as int))
    else if s[0] == '+' && |s| > 1 && AllDigits(s[1..]) then Some(Value(s[1..]))
    else if AllDigits(s) then Some(Value(s))
    else None
  }

  predicate IsInt32(n: int) { -0x8000_0000 <= n < 0x8000_0000 }

  /** An exponent after the first e or E, at most one point before it; the point counts the digits after it away. */
  function ParseDecimal(s: string): Option<Decimal> {
    var e := IndexOf(s, {'e', 'E'});
    var shift := if e < |s| then ParseInt(s[e + 1..]) else Some(0);
    if shift.None? || !IsInt32(shift.value) then None
    else
      var m := s[..e];
      var p := IndexOf(m, {'.'});
      if p < |m| && IndexOf(m[p + 1..], {'.'}) < |m[p + 1..]| then None
      else
        var v := ParseInt(if p < |m| then m[..p] + m[p + 1..] else m);
        var exp := shift.value - if p < |m| then |m| - p - 1 else 0;
        if v.None? || !IsInt32(exp) then None else Some(Decimal(v.value, exp))
  }

  /** Unicode's white space. */
  predicate IsSpace(c: char) {
    || '\U{0009}' <= c <= '\U{000D}' || c == ' ' || c == '\U{0085}' || c == '\U{00A0}' || c == '\U{1680}'
    || '\U{2000}' <= c <= '\U{200A}' || '\U{2028}' <= c <= '\U{2029}'
    || c == '\U{202F}' || c == '\U{205F}' || c == '\U{3000}'
  }

  function TrimSpace(s: string): string
    decreases |s|
  {
    if s == [] then s
    else if IsSpace(s[0]) then TrimSpace(s[1..])
    else if IsSpace(s[|s| - 1]) then TrimSpace(s[..|s| - 1])
    else s
  }

  /** Towards zero. */
  function Cut(v: int, p: nat): int
    requires p > 0
  {
    if v < 0 then -(-v / p) else v / p
  }

  /** A decimal in units of 10^-scale, cut. */
  function Units(d: Decimal, scale: nat): int {
    if d.exp + scale >= 0 then d.value * Money.Pow10(d.exp + scale) else Cut(d.value, Money.Pow10(-(d.exp + scale)))
  }

  /** The two are the same number. */
  predicate SameNumber(d: Decimal, units: int, scale: nat) {
    if d.exp + scale >= 0 then units == d.value * Money.Pow10(d.exp + scale)
    else units * Money.Pow10(-(d.exp + scale)) == d.value
  }

  function Parse(amount: string, scale: nat): Parsed {
    var d := ParseDecimal(TrimSpace(amount));
    if d.None? then Err(BadAmount)
    else if -d.value.exp > scale && !SameNumber(d.value, Units(d.value, scale), scale) then Err(TooManyDecimals)
    else Ok(Units(d.value, scale))
  }

  lemma CutIsExact(v: int, p: nat, u: int)
    requires p > 0 && u * p == v
    ensures Cut(v, p) == u
  {
    if v < 0 {
      assert (-u) * p == -v;
      QuotientIs(-v, p, -u);
    } else {
      QuotientIs(v, p, u);
    }
  }

  lemma QuotientIs(v: nat, p: nat, u: int)
    requires p > 0 && u * p == v
    ensures v / p == u
  {
    var q := v / p;
    Money.DivBounds(v, p);
    Money.Cancels(q, u, p);
    CancelsStrictly(u, q + 1, p);
  }

  lemma CancelsStrictly(a: int, b: int, d: nat)
    requires a * d < b * d
    ensures a < b
  {
    if b <= a {
      Numbers.MulMono(0, a - b, d);
    }
  }

  /** Parse never rounds: it gives the amount exactly when the text is a decimal that is a whole number of units, and
      says which of the two it is not. */
  lemma ParseIsExact(amount: string, scale: nat, u: int)
    ensures var d := ParseDecimal(TrimSpace(amount));
            && (Parse(amount, scale) == Ok(u) <==> d.Some? && SameNumber(d.value, u, scale))
            && (Parse(amount, scale) == Err(BadAmount) <==> d.None?)
            && (Parse(amount, scale) == Err(TooManyDecimals) <==>
                d.Some? && !SameNumber(d.value, Units(d.value, scale), scale))
  {
    var d := ParseDecimal(TrimSpace(amount));
    hide ParseDecimal, TrimSpace;
    if d.Some? && d.value.exp + scale < 0 {
      var p := Money.Pow10(-(d.value.exp + scale));
      if u * p == d.value.value {
        CutIsExact(d.value.value, p, u);
      }
    }
  }

  // ------------------------------------------------------------------
  // Printing
  // ------------------------------------------------------------------

  /** Whole units and what is left of them. */
  function Whole(n: nat, p: nat): nat
    requires p > 0
  {
    n / p
  }

  function Rest(n: nat, p: nat): (r: nat)
    requires p > 0
    ensures r < p
  {
    n % p
  }

  lemma WholeAndRest(n: nat, p: nat)
    requires p > 0
    ensures Whole(n, p) * p + Rest(n, p) == n
  {
  }

  function Unsigned(n: nat, scale: nat): string {
    var p := Money.Pow10(scale);
    Digits(Whole(n, p)) + if scale == 0 then "" else "." + Padded(Rest(n, p), scale)
  }

  function Sign(negative: bool): string { if negative then "-" else "" }

  function Signed(negative: bool, n: nat): int { if negative then -(n as int) else n }

  function String(u: int, scale: nat): string { Sign(u < 0) + Unsigned(Money.Abs(u), scale) }

  lemma IndexIs(a: string, b: string, c: char, cs: set<char>)
    requires c in cs && forall i :: 0 <= i < |a| ==> a[i] !in cs
    ensures IndexOf(a + [c] + b, cs) == |a|
  {
    var s := a + [c] + b;
    assert s[|a|] == c;
    assert forall i :: 0 <= i < |a| ==> s[i] == a[i];
  }

  lemma {:induction false} IndexNone(s: string, cs: set<char>)
    requires forall i :: 0 <= i < |s| ==> s[i] !in cs
    ensures IndexOf(s, cs) == |s|
  {
  }

  lemma NoSpaces(s: string)
    requires s == [] || (!IsSpace(s[0]) && !IsSpace(s[|s| - 1]))
    ensures TrimSpace(s) == s
  {
  }

  /** Digits, with a sign or not, read as the number they are. */
  lemma SignedDigits(negative: bool, ds: string)
    requires AllDigits(ds) && ds != []
    ensures ParseInt(Sign(negative) + ds) == Some(Signed(negative, Value(ds)))
  {
    assert IsDigit(ds[0]);
    hide Value;
    if negative {
      assert ("-" + ds)[1..] == ds;
    } else {
      assert "" + ds == ds;
    }
  }

  lemma NoMarks(negative: bool, ds: string, cs: set<char>)
    requires AllDigits(ds) && forall c :: c in cs ==> !IsDigit(c) && c != '-'
    ensures forall i :: 0 <= i < |Sign(negative) + ds| ==> (Sign(negative) + ds)[i] !in cs
  {
    var s := Sign(negative) + ds;
    forall i | 0 <= i < |s| ensures s[i] !in cs {
      assert s[i] == '-' || IsDigit(ds[i - |Sign(negative)|]);
    }
  }

  lemma ConcatDigits(a: string, b: string)
    requires AllDigits(a) && AllDigits(b)
    ensures AllDigits(a + b)
  {
  }

  /** A whole part and a fraction of digits read as one number, shifted. */
  lemma ReadsFraction(negative: bool, whole: string, fraction: string)
    requires AllDigits(whole) && AllDigits(fraction) && whole != [] && IsInt32(-(|fraction| as int))
    ensures AllDigits(whole + fraction)
    ensures ParseDecimal(Sign(negative) + whole + "." + fraction)
            == Some(Decimal(Signed(negative, Value(whole + fraction)), -|fraction|))
  {
    hide Value, IndexOf, ParseInt, ParseDecimal, AllDigits, Sign, Signed;
    ConcatDigits(whole, fraction);
    NoMarks(negative, whole, {'e', 'E', '.'});
    NoMarks(false, fraction, {'e', 'E', '.'});
    NoSign(fraction);
    SignedDigits(negative, whole + fraction);
    assert Sign(negative) + whole + fraction == Sign(negative) + (whole + fraction);
    ReadsParts(Sign(negative) + whole, fraction, Signed(negative, Value(whole + fraction)));
  }

  lemma ReadsParts(front: string, fraction: string, v: int)
    requires forall i :: 0 <= i < |front| ==> front[i] !in {'e', 'E', '.'}
    requires forall i :: 0 <= i < |fraction| ==> fraction[i] !in {'e', 'E', '.'}
    requires ParseInt(front + fraction) == Some(v) && IsInt32(-(|fraction| as int))
    ensures ParseDecimal(front + "." + fraction) == Some(Decimal(v, -|fraction|))
  {
    hide IndexOf, ParseInt;
    var s := front + "." + fraction;
    IndexNone(s, {'e', 'E'});
    IndexIs(front, fraction, '.', {'.'});
    IndexNone(fraction, {'.'});
    assert s[..|s|] == s && s[..|front|] == front && s[|front| + 1..] == fraction;
  }

  lemma NoSign(s: string)
    ensures Sign(false) + s == s
  {
  }

  lemma ReadsWhole(negative: bool, whole: string)
    requires AllDigits(whole) && whole != []
    ensures ParseDecimal(Sign(negative) + whole) == Some(Decimal(Signed(negative, Value(whole)), 0))
  {
    hide Value, IndexOf, ParseInt, AllDigits, Sign, Signed;
    var s := Sign(negative) + whole;
    NoMarks(negative, whole, {'e', 'E'});
    NoMarks(negative, whole, {'.'});
    IndexNone(s, {'e', 'E'});
    IndexNone(s, {'.'});
    assert s[..|s|] == s;
    SignedDigits(negative, whole);
  }

  /** What String prints, Parse reads back: every amount, of either sign, in every currency. */
  lemma RoundTrip(u: int, scale: nat)
    requires scale <= 0x8000_0000
    ensures Parse(String(u, scale), scale) == Ok(u)
  {
    hide ParseDecimal, TrimSpace, Digits, Padded, Value, Whole, Rest, Sign, AllDigits, Money.Pow10;
    var n, neg := Money.Abs(u), u < 0;
    var p := Money.Pow10(scale);
    var w, f := Whole(n, p), Rest(n, p);
    DigitsValue(w);
    PaddedValue(Digits(w), f, scale);
    WholeAndRest(n, p);
    Edges(u, scale);
    NoSpaces(String(u, scale));
    OneIsPow();
    if scale == 0 {
      assert Digits(w) + "" == Digits(w);
      ReadsWhole(neg, Digits(w));
    } else {
      assert Sign(neg) + (Digits(w) + ("." + Padded(f, scale))) == Sign(neg) + Digits(w) + "." + Padded(f, scale);
      ReadsFraction(neg, Digits(w), Padded(f, scale));
    }
    ParseIsExact(String(u, scale), scale, u);
  }

  lemma OneIsPow()
    ensures Money.Pow10(0) == 1
  {
  }

  lemma Edges(u: int, scale: nat)
    ensures var s := String(u, scale); s != [] && !IsSpace(s[0]) && !IsSpace(s[|s| - 1])
  {
    hide Digits, Padded, Whole, Rest, Money.Pow10;
    var n, p := Money.Abs(u), Money.Pow10(scale);
    var whole := Digits(Whole(n, p));
    assert IsDigit(whole[0]) && IsDigit(whole[|whole| - 1]);
    if scale > 0 {
      var fraction := Padded(Rest(n, p), scale);
      assert IsDigit(fraction[scale - 1]);
    }
  }

  /** So no two amounts of a currency print alike. */
  lemma StringIsInjective(u: int, v: int, scale: nat)
    requires scale <= 0x8000_0000 && String(u, scale) == String(v, scale)
    ensures u == v
  {
    RoundTrip(u, scale);
    RoundTrip(v, scale);
  }

  // ------------------------------------------------------------------
  // Rounding
  // ------------------------------------------------------------------

  datatype Rounding = HalfUp | Down | Up | HalfEven

  /** A magnitude of v / d in whole units, by mode. */
  function RoundedAbs(v: nat, d: nat, mode: Rounding): nat
    requires d > 0
  {
    var q, r := v / d, v % d;
    match mode
    case Down => q
    case Up => if r > 0 then q + 1 else q
    case HalfUp => if 2 * r >= d then q + 1 else q
    case HalfEven => if 2 * r > d || (2 * r == d && q % 2 == 1) then q + 1 else q
  }

  function Rounded(v: int, d: nat, mode: Rounding): int
    requires d > 0
  {
    if v < 0 then -(RoundedAbs(-v, d, mode) as int) else RoundedAbs(v, d, mode)
  }

  /** Down is the last whole amount not past v / d, Up the first not short of it, counted from zero; the halves are
      nearest, a tie going away from zero or to the even amount. */
  lemma RoundingIsNearest(v: nat, d: nat, mode: Rounding)
    requires d > 0
    ensures var x := RoundedAbs(v, d, mode);
            match mode
            case Down => x * d <= v < (x + 1) * d
            case Up => x * d - d < v <= x * d
            case HalfUp => 2 * v - d < 2 * (x * d) <= 2 * v + d
            case HalfEven => && 2 * v - d <= 2 * (x * d) <= 2 * v + d
                             && (Money.Abs(2 * (x * d) - 2 * v) == d ==> x % 2 == 0)
  {
    var q, r := v / d, v % d;
    assert v == q * d + r;
    assert (q + 1) * d == q * d + d;
  }

  /** Every mode leaves a whole amount as it is, and treats the two signs alike. */
  lemma RoundingKeepsWhole(x: int, d: nat, mode: Rounding, v: int)
    requires d > 0
    ensures Rounded(x * d, d, mode) == x
    ensures Rounded(-v, d, mode) == -Rounded(v, d, mode)
  {
    if x < 0 {
      assert -(x * d) == (-x) * d;
      WholeHasNoRemainder(-x, d);
    } else {
      WholeHasNoRemainder(x, d);
    }
    ZeroRounds(d, mode);
  }

  lemma ZeroRounds(d: nat, mode: Rounding)
    requires d > 0
    ensures RoundedAbs(0, d, mode) == 0
  {
  }

  lemma WholeHasNoRemainder(x: nat, d: nat)
    requires d > 0
    ensures (x * d) / d == x && (x * d) % d == 0
  {
    QuotientIs(x * d, d, x);
    assert x * d == (x * d) / d * d + (x * d) % d;
  }

  /** A decimal as money, rounded once to the currency's scale. */
  function FromDecimal(d: Decimal, scale: nat, mode: Rounding): int {
    if d.exp + scale >= 0 then d.value * Money.Pow10(d.exp + scale)
    else Rounded(d.value, Money.Pow10(-(d.exp + scale)), mode)
  }

  /** An amount times a rate, rounded once. */
  function Mul(u: int, rate: Decimal, scale: nat, mode: Rounding): int {
    FromDecimal(Decimal(u * rate.value, rate.exp - scale), scale, mode)
  }

  /** Of a decimal that is a whole number of units every mode makes that number, as Parse does. */
  lemma WholeDecimalIsExact(d: Decimal, u: int, scale: nat, mode: Rounding)
    requires SameNumber(d, u, scale)
    ensures FromDecimal(d, scale, mode) == u
  {
    if d.exp + scale < 0 {
      RoundingKeepsWhole(u, Money.Pow10(-(d.exp + scale)), mode, 0);
    }
  }

  /** The product misses the exact one by less than a unit, by at most half of one when rounding to the nearest. */
  lemma MulIsNear(u: int, rate: Decimal, scale: nat, mode: Rounding)
    ensures rate.exp >= 0 ==> Mul(u, rate, scale, mode) == u * rate.value * Money.Pow10(rate.exp)
    ensures rate.exp < 0 ==>
              var d, off := Money.Pow10(-rate.exp), Mul(u, rate, scale, mode) * Money.Pow10(-rate.exp) - u * rate.value;
              Money.Abs(off) < d && (mode in {HalfUp, HalfEven} ==> 2 * Money.Abs(off) <= d)
  {
    hide Rounded, Money.Pow10;
    if rate.exp < 0 {
      RoundedIsNear(u * rate.value, Money.Pow10(-rate.exp), mode);
    }
  }

  lemma RoundedIsNear(v: int, d: nat, mode: Rounding)
    requires d > 0
    ensures var off := Rounded(v, d, mode) * d - v;
            Money.Abs(off) < d && (mode in {HalfUp, HalfEven} ==> 2 * Money.Abs(off) <= d)
  {
    hide RoundedAbs;
    NearAbs(Money.Abs(v), d, mode);
    Opposite(RoundedAbs(Money.Abs(v), d, mode), d);
  }

  lemma NearAbs(v: nat, d: nat, mode: Rounding)
    requires d > 0
    ensures var off: int := RoundedAbs(v, d, mode) * d - v;
            Money.Abs(off) < d && (mode in {HalfUp, HalfEven} ==> 2 * Money.Abs(off) <= d)
  {
    hide RoundedAbs;
    RoundingIsNearest(v, d, mode);
    var x := RoundedAbs(v, d, mode);
    assert (x + 1) * d == x * d + d;
  }

  lemma Opposite(x: nat, d: nat)
    ensures (-(x as int)) * d == -((x * d) as int)
  {
  }
}
