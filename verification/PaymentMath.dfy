/** The payment calculation contract: fixed and percentage amounts, the three VAT rules and the
    rounding of every figure to whole cents.  Amounts are exact reals; rounded figures are whole
    numbers of cents, so binary floating point plays no part. */
module PaymentMath {
  import opened Prelude

  const VAT_RATE: real := 0.18

  datatype CalcType = Fixed | Percentage | PerUnit | UsageBased | Tiered | CustomCalc
  datatype VatRule = VatNone | VatAdd | VatIncluded | UnknownVat

  /** The figures before rounding. */
  datatype Figures = Figures(base: real, calculated: real, vat: real, total: real)

  /** The figures as stored: whole cents. */
  datatype Calculation = Calculation(base: int, calculated: int, vat: int, total: int)

  function OrZero(x: Option<real>): real {
    match x
    case Some(v) => v
    case None => 0.0
  }

  function WithVat(base: real, calculated: real, rule: VatRule): Option<Figures> {
    match rule
    case VatNone => Some(Figures(base, calculated, 0.0, calculated))
    case VatAdd => Some(Figures(base, calculated, calculated * VAT_RATE, calculated + calculated * VAT_RATE))
    case VatIncluded => Some(Figures(base, calculated, calculated - calculated / (1.0 + VAT_RATE), calculated))
    case UnknownVat => None
  }

  function Share(basis: real, points: real): real { basis * points / 100.0 }

  /** `None` stands for the ValueError raised on an unknown calculation type or VAT rule. */
  function ExactPayment(calcType: CalcType, fixedAmount: Option<real>, ratePct: Option<real>,
                        basis: Option<real>, rule: VatRule): Option<Figures>
  {
    match calcType
    case Fixed => WithVat(OrZero(fixedAmount), OrZero(fixedAmount), rule)
    case Percentage => WithVat(OrZero(basis), Share(OrZero(basis), OrZero(ratePct)), rule)
    case _ => None
  }

  /** Rounds to the nearest whole cent, ties to the even cent. */
  function Cents(x: real): int {
    var scaled := x * 100.0;
    var low := scaled.Floor;
    var rest := scaled - low as real;
    if rest < 0.5 then low
    else if rest > 0.5 then low + 1
    else if low % 2 == 0 then low
    else low + 1
  }

  function Rounded(f: Figures): Calculation {
    Calculation(Cents(f.base), Cents(f.calculated), Cents(f.vat), Cents(f.total))
  }

  function CalculatePayment(calcType: CalcType, fixedAmount: Option<real>, ratePct: Option<real>,
                            basis: Option<real>, rule: VatRule): Option<Calculation>
  {
    match ExactPayment(calcType, fixedAmount, ratePct, basis, rule)
    case Some(f) => Some(Rounded(f))
    case None => None
  }

  // ---- rounding ----

  /** Rounding never moves a figure by more than half a cent. */
  lemma CentsNearest(x: real)
    ensures x * 100.0 - 0.5 <= Cents(x) as real <= x * 100.0 + 0.5
  {
    var low := (x * 100.0).Floor;
    assert low as real <= x * 100.0 < low as real + 1.0;
  }

  /** Rounding keeps the order of figures, ties included. */
  lemma CentsMonotone(x: real, y: real)
    requires x <= y
    ensures Cents(x) <= Cents(y)
  {
    var a, b := (x * 100.0).Floor, (y * 100.0).Floor;
    assert a <= b;
    if a < b {
      assert Cents(x) <= a + 1 <= b <= Cents(y);
    }
  }

  /** The whole number of cents nearest to a figure: at most half a cent away, and the even one of two as near. */
  predicate Nearest(n: int, x: real) {
    var gap := n as real - x * 100.0;
    -0.5 <= gap <= 0.5 && (gap == 0.5 || gap == -0.5 ==> n % 2 == 0)
  }

  /** There is one such number, and rounding finds it. */
  lemma CentsExactly(n: int, x: real)
    ensures n == Cents(x) <==> Nearest(n, x)
  {
    var low := (x * 100.0).Floor;
    assert low as real <= x * 100.0 < low as real + 1.0;
    if Nearest(n, x) { assert n == low || n == low + 1; }
  }

  // ---- what the calculation promises ----

  /** The figures stored for an amount: the base as it is, and the VAT and the total as the rule asks for, each to the
      nearest cent. */
  predicate FiguresFor(c: Calculation, base: real, amount: real, rule: VatRule) {
    && Nearest(c.base, base) && Nearest(c.calculated, amount)
    && match rule
       case VatNone => c.vat == 0 && Nearest(c.total, amount)
       case VatAdd => Nearest(c.vat, 0.18 * amount) && Nearest(c.total, 1.18 * amount)
       case VatIncluded => Nearest(c.vat, amount - amount / 1.18) && Nearest(c.total, amount)
       case UnknownVat => false
  }

  lemma FiguresExactly(c: Calculation, base: real, amount: real, rule: VatRule)
    ensures FiguresFor(c, base, amount, rule)
       <==> WithVat(base, amount, rule).Some? && c == Rounded(WithVat(base, amount, rule).value)
  {
    CentsExactly(c.base, base);
    CentsExactly(c.calculated, amount);
    CentsExactly(c.vat, 0.18 * amount);
    CentsExactly(c.vat, amount - amount / 1.18);
    CentsExactly(c.vat, 0.0);
    CentsExactly(c.total, amount);
    CentsExactly(c.total, 1.18 * amount);
    assert Cents(0.0) == 0;
  }

  /** A fixed payment is its amount; none is calculated under an unknown rule. */
  lemma FixedExactly(fixed: Option<real>, rule: VatRule, c: Calculation)
    ensures var amount := if fixed.Some? then fixed.value else 0.0;
      CalculatePayment(Fixed, fixed, None, None, rule) == Some(c) <==> FiguresFor(c, amount, amount, rule)
  {
    FiguresExactly(c, OrZero(fixed), OrZero(fixed), rule);
  }

  /** A percentage payment is that part of its basis, in points of a hundred. */
  lemma PercentageExactly(rate: real, basis: real, amount: real, rule: VatRule, c: Calculation)
    requires amount == basis * rate / 100.0
    ensures CalculatePayment(Percentage, None, Some(rate), Some(basis), rule) == Some(c) <==> FiguresFor(c, basis, amount, rule)
  {
    assert Share(basis, rate) == amount;
    assert ExactPayment(Percentage, None, Some(rate), Some(basis), rule) == WithVat(basis, Share(basis, rate), rule);
    FiguresExactly(c, basis, amount, rule);
  }

  /** No other kind is calculated. */
  lemma OtherKindsAreRefused(calcType: CalcType, fixed: Option<real>, rate: Option<real>, basis: Option<real>, rule: VatRule)
    ensures CalculatePayment(calcType, fixed, rate, basis, rule).Some? ==> calcType == Fixed || calcType == Percentage
  {
  }

  // ---- what the VAT rules promise ----

  /** Backing VAT out of a total that an ADD rule produced recovers exactly the added VAT, and the net
      that is left is the amount the ADD rule started from. */
  lemma IncludedInvertsAdd(base: real, calculated: real)
    ensures
      var added := WithVat(base, calculated, VatAdd).value;
      var included := WithVat(base, added.total, VatIncluded).value;
      included.vat == added.vat && included.total - included.vat == calculated
  {
    var total := calculated + calculated * VAT_RATE;
    assert total == calculated * (1.0 + VAT_RATE);
    assert total / (1.0 + VAT_RATE) == calculated;
  }

  /** The three ADD figures are rounded independently, yet they still add up to within one cent. */
  lemma AddReconcilesToACent(calcType: CalcType, fixedAmount: Option<real>, ratePct: Option<real>, basis: Option<real>)
    requires calcType == Fixed || calcType == Percentage
    ensures
      var r := CalculatePayment(calcType, fixedAmount, ratePct, basis, VatAdd);
      r.Some? && -1 <= r.value.calculated + r.value.vat - r.value.total <= 1
  {
    var f := ExactPayment(calcType, fixedAmount, ratePct, basis, VatAdd).value;
    CentsNearest(f.calculated);
    CentsNearest(f.vat);
    CentsNearest(f.total);
    assert f.total * 100.0 == f.calculated * 100.0 + f.vat * 100.0;
    var gap := Cents(f.calculated) + Cents(f.vat) - Cents(f.total);
    assert -1.5 <= gap as real <= 1.5;
  }

  /** The one-cent bound is reached: 10% of 0.25 with VAT added stores 0.02 + 0.00 against 0.03. */
  lemma AddCanMissByACent()
    ensures
      var r := CalculatePayment(Percentage, None, Some(10.0), Some(0.25), VatAdd);
      r == Some(Calculation(25, 2, 0, 3))
  {
    assert (0.25 * 100.0).Floor == 25;
    assert (0.025 * 100.0).Floor == 2;
    assert (0.0045 * 100.0).Floor == 0;
    assert (0.0295 * 100.0).Floor == 2;
  }

  /** Recovering VAT from the *stored* (rounded) ADD total is off by at most one cent. */
  lemma IncludedRecoversStoredVatToACent(base: real, calculated: real)
    ensures
      var added := Rounded(WithVat(base, calculated, VatAdd).value);
      var back := Rounded(WithVat(base, added.total as real / 100.0, VatIncluded).value);
      -1 <= back.vat - added.vat <= 1
  {
    var exact := WithVat(base, calculated, VatAdd).value;
    var added := Rounded(exact);
    var stored := added.total as real / 100.0;
    var again := WithVat(base, stored, VatIncluded).value;
    CentsNearest(exact.total);
    CentsNearest(exact.vat);
    CentsNearest(again.vat);
    assert exact.vat == exact.total - exact.total / 1.18 by { IncludedInvertsAdd(base, calculated); }
    assert again.vat == stored - stored / 1.18;
    var drift := stored - exact.total;
    assert -0.005 <= drift <= 0.005;
    assert again.vat - exact.vat == drift - drift / 1.18;
    assert -0.001 <= again.vat - exact.vat <= 0.001;
  }

  /** For a non-negative amount the stored VAT lies between zero and the stored total, under every rule. */
  lemma VatWithinTotal(calcType: CalcType, fixedAmount: Option<real>, ratePct: Option<real>,
                       basis: Option<real>, rule: VatRule)
    requires OrZero(fixedAmount) >= 0.0 && OrZero(ratePct) >= 0.0 && OrZero(basis) >= 0.0
    requires CalculatePayment(calcType, fixedAmount, ratePct, basis, rule).Some?
    ensures
      var c := CalculatePayment(calcType, fixedAmount, ratePct, basis, rule).value;
      0 <= c.vat <= c.total && 0 <= c.calculated <= c.total
  {
    var f := ExactPayment(calcType, fixedAmount, ratePct, basis, rule).value;
    ShareNonNegative(OrZero(basis), OrZero(ratePct));
    assert f.calculated >= 0.0;
    assert 0.0 <= f.vat <= f.total && f.calculated <= f.total;
    assert Cents(0.0) == 0;
    CentsMonotone(0.0, f.vat);
    CentsMonotone(f.vat, f.total);
    CentsMonotone(0.0, f.calculated);
    CentsMonotone(f.calculated, f.total);
  }

  lemma ProductNonNegative(x: real, y: real)
    requires x >= 0.0 && y >= 0.0
    ensures x * y >= 0.0
  {}

  lemma ShareNonNegative(basis: real, points: real)
    requires basis >= 0.0 && points >= 0.0
    ensures Share(basis, points) >= 0.0
  {
    ProductNonNegative(basis, points);
  }

  lemma ProductMonotone(x: real, y: real, k: real)
    requires x <= y && k >= 0.0
    ensures x * k <= y * k
  {
    ProductNonNegative(y - x, k);
    assert (y - x) * k == y * k - x * k;
  }

  /** The stored total never falls when the basis of a percentage Term rises. */
  lemma TotalMonotoneInBasis(rate: real, low: real, high: real, rule: VatRule)
    requires rate >= 0.0 && low <= high && rule != UnknownVat
    ensures
      var a := CalculatePayment(Percentage, None, Some(rate), Some(low), rule);
      var b := CalculatePayment(Percentage, None, Some(rate), Some(high), rule);
      a.Some? && b.Some? && a.value.total <= b.value.total && a.value.vat <= b.value.vat
  {
    var f := ExactPayment(Percentage, None, Some(rate), Some(low), rule).value;
    var g := ExactPayment(Percentage, None, Some(rate), Some(high), rule).value;
    ProductMonotone(low, high, rate);
    assert f.calculated <= g.calculated;
    CentsMonotone(f.total, g.total);
    CentsMonotone(f.vat, g.vat);
  }

  // ---- the percent boundary of the store ----

  /** A Percent column holds the fraction (0.1); every calculation works in points (10). */
  function PercentPointsFromStore(raw: Option<real>): real { OrZero(raw) * 100.0 }

  function StorePercentFromPoints(points: real): real { points / 100.0 }

  /** A rate written to the store and read back calculates exactly the payment its points ask for, and
      the stored fraction is itself recovered. */
  lemma PercentBoundaryExact(points: real, raw: real, basis: Option<real>, rule: VatRule)
    ensures StorePercentFromPoints(PercentPointsFromStore(Some(raw))) == raw
    ensures CalculatePayment(Percentage, None, Some(PercentPointsFromStore(Some(StorePercentFromPoints(points)))), basis, rule)
         == CalculatePayment(Percentage, None, Some(points), basis, rule)
  {
    assert points / 100.0 * 100.0 == points;
    assert raw * 100.0 / 100.0 == raw;
  }
}
