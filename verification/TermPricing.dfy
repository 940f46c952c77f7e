/** What a Payment Term amounts to, said from its columns. */
module TermPricing {
  import opened Prelude
  import opened PaymentMath
  import opened CompletionEngine
  import opened CompletionAnswers
  import opened CommercialChecks
  import opened CommercialTables

  // ---- values ----

  /** A value that counts as none. */
  predicate IsBlank(v: Value) {
    v == Nothing || v == Number(0.0) || v == Flag(false) || v == Items([]) || (v.Text? && v.s == "")
  }

  predicate Says(v: Value, word: string) { v.Text? && v.s == word }

  /** The value is this number, or a text that spells it. */
  predicate IsNumber(v: Value, r: real) { v == Number(r) || (v.Text? && v.reading == Some(r)) }

  /** A blank column counts as zero. */
  predicate AmountIn(v: Value, r: real) { if IsBlank(v) then r == 0.0 else IsNumber(v, r) }

  lemma BlankIsFalse(v: Value)
    ensures IsBlank(v) <==> !Truthy(v)
  {
  }

  lemma AmountIsFloat(v: Value, r: real)
    ensures AmountIn(v, r) <==> FloatOrZero(v) == Some(r)
  {
    BlankIsFalse(v);
  }

  // ---- a Term's columns ----

  /** The Term's calculation type, by its code column if that is filled. */
  predicate TypeIs(t: TermRow, word: string) { if IsBlank(t.calcCode) then Says(t.calcType, word) else Says(t.calcCode, word) }

  /** The Term's VAT rule; without one there is no VAT. */
  predicate VatIs(t: TermRow, word: string) { if t.vatRule == Nothing then word == "none" else Says(t.vatRule, word) }

  /** The part of the basis a rate column stands for: the stored fraction, or nothing when it holds no number. */
  predicate PartIn(v: Value, part: real) {
    if !IsBlank(v) && v.Number? then part == v.r
    else if !IsBlank(v) && v.Text? && v.reading.Some? then part == v.reading.value
    else part == 0.0
  }

  function PartOf(base: real, part: real): real { base * part }

  /** A fixed Term amounts to its amount, another to its part of the basis given. */
  ghost predicate Amounts(t: TermRow, basis: Value, base: real, amount: real) {
    if TypeIs(t, "fixed") then AmountIn(t.fixedAmount, base) && amount == base
    else AmountIn(basis, base) && exists part :: PartIn(t.ratePct, part) && amount == PartOf(base, part)
  }

  /** The figures for that amount, in cents: without VAT, with 18% added, or with 18% in it. */
  predicate Priced(c: Calculation, t: TermRow, base: real, amount: real) {
    && Nearest(c.base, base) && Nearest(c.calculated, amount)
    && (|| (VatIs(t, "none") && c.vat == 0 && Nearest(c.total, amount))
        || (VatIs(t, "add") && Nearest(c.vat, 0.18 * amount) && Nearest(c.total, 1.18 * amount))
        || (VatIs(t, "included") && Nearest(c.vat, amount - amount / 1.18) && Nearest(c.total, amount)))
  }

  ghost predicate Costs(t: TermRow, basis: Value, c: Calculation) {
    exists base, amount :: Amounts(t, basis, base, amount) && Priced(c, t, base, amount)
  }

  lemma TypeIsEffective(t: TermRow, word: string)
    ensures TypeIs(t, word) <==> OneOf(EffectiveType(t), [word])
  {
    BlankIsFalse(t.calcCode);
    assert forall s: string :: s in [word] <==> s == word;
  }

  lemma VatIsRule(t: TermRow)
    ensures VatIs(t, "none") <==> VatRuleOf(TermVat(t)) == VatNone
    ensures VatIs(t, "add") <==> VatRuleOf(TermVat(t)) == VatAdd
    ensures VatIs(t, "included") <==> VatRuleOf(TermVat(t)) == VatIncluded
  {
    assert "none"[0] != "add"[0] && "add"[0] != "included"[0] && "none"[0] != "included"[0];
  }

  lemma PricedIsFigures(c: Calculation, t: TermRow, base: real, amount: real)
    ensures Priced(c, t, base, amount) <==> FiguresFor(c, base, amount, VatRuleOf(TermVat(t)))
  {
    VatIsRule(t);
  }

  lemma FixedTerm(t: TermRow, basis: Value, c: Calculation)
    requires TypeIs(t, "fixed")
    ensures TermCalculation(t, basis) == Some(c) <==> Costs(t, basis, c)
  {
    TypeIsEffective(t, "fixed");
    forall r ensures AmountIn(t.fixedAmount, r) <==> FloatOrZero(t.fixedAmount) == Some(r) { AmountIsFloat(t.fixedAmount, r); }
    if FloatOrZero(t.fixedAmount).Some? {
      var a := FloatOrZero(t.fixedAmount).value;
      FixedExactly(Some(a), VatRuleOf(TermVat(t)), c);
      PricedIsFigures(c, t, a, a);
      assert Amounts(t, basis, a, a);
    }
  }

  lemma PartCalculated(base: real, part: real, points: real, rule: VatRule, c: Calculation)
    requires points == part * 100.0
    ensures CalculatePayment(Percentage, None, Some(points), Some(base), rule) == Some(c)
       <==> FiguresFor(c, base, PartOf(base, part), rule)
  {
    assert base * (part * 100.0) / 100.0 == base * part;
    PercentageExactly(points, base, base * part, rule, c);
  }

  lemma RateIsPart(t: TermRow) returns (part: real)
    ensures forall p :: PartIn(t.ratePct, p) <==> p == part
    ensures RatePoints(t) == part * 100.0
  {
    BlankIsFalse(t.ratePct);
    part := if FloatOrZero(t.ratePct).Some? then FloatOrZero(t.ratePct).value else 0.0;
  }

  lemma PercentageTerm(t: TermRow, basis: Value, c: Calculation)
    requires !TypeIs(t, "fixed")
    ensures TermCalculation(t, basis) == Some(c) <==> Costs(t, basis, c)
  {
    TypeIsEffective(t, "fixed");
    forall r ensures AmountIn(basis, r) <==> FloatOrZero(basis) == Some(r) { AmountIsFloat(basis, r); }
    var part := RateIsPart(t);
    if FloatOrZero(basis).Some? {
      var b := FloatOrZero(basis).value;
      PartCalculated(b, part, RatePoints(t), VatRuleOf(TermVat(t)), c);
      PricedIsFigures(c, t, b, PartOf(b, part));
      assert PartIn(t.ratePct, part);
      assert Amounts(t, basis, b, PartOf(b, part));
    }
  }

  /** A Term is calculated to these figures exactly when its columns and the basis say so; it is not calculated at all
      when the amount or the basis is no number or the VAT rule is none of the three. */
  lemma TermPricedExactly(t: TermRow, basis: Value, c: Calculation)
    ensures TermCalculation(t, basis) == Some(c) <==> Costs(t, basis, c)
  {
    if TypeIs(t, "fixed") { FixedTerm(t, basis, c); } else { PercentageTerm(t, basis, c); }
  }
}
