/** A Payment Term completed by answers: when its writer accepts it. */
module TermAnswers {
  import opened Prelude
  import opened DateAnswers
  import opened Vocabulary
  import opened CompletionEngine
  import opened CompletionAnswers
  import opened CompletionPayload
  import opened CommercialContracts
  import opened ContractLaws
  import opened CommercialChecks
  import opened CommercialTranslation

  ghost predicate AnsweredTerm(w: Writer) { w.contract == PaymentTermContract() && FromAnswers(w) && Complete(w) }

  lemma TermIsAnswered(w: Writer)
    requires AnsweredTerm(w)
    ensures AnsweredAll(w)
  {
    PaymentTermWellFormed();
    PaymentTermOwnColumns();
  }

  /** What the payload holds in the column of a field that can be asked for. */
  lemma TermColumn(w: Writer, f: Field, rule: Rule)
    requires AnsweredTerm(w) && PaymentTermPlace(f) < 30 && rule == PaymentTermRule(f)
    requires rule.manual && rule.input != Computed && rule.persisted
    ensures var v := At(PayloadFor(w), PaymentTermColumnOf(f));
      && (PaymentTermColumnOf(f) in PayloadFor(w) <==> v != Nothing)
      && (v == Nothing || Settled(rule.input, v) || (v == rule.default && Present(v)))
      && (rule.required == Always || Present(rule.default) ==> v != Nothing)
      && (rule.required == Conditional && rule.allConditions && rule.when != [] && AllMatch(rule.when, Resolved(w)) ==> v != Nothing)
      && v == Get(Resolved(w), f)
  {
    TermIsAnswered(w);
    PaymentTermEntry(f);
    ColumnFromAnswers(w, PaymentTermPlace(f));
  }

  lemma TermDirection(w: Writer)
    requires AnsweredTerm(w)
    ensures DirectionColumn in PayloadFor(w) && Chosen(PayloadFor(w)[DirectionColumn], Directions)
  {
    TermColumn(w, DirectionField, PaymentTermRule(DirectionField));
  }

  lemma TermCurrency(w: Writer)
    requires AnsweredTerm(w)
    ensures CurrencyColumn in PayloadFor(w) && Chosen(PayloadFor(w)[CurrencyColumn], Currencies)
  {
    TermColumn(w, CurrencyField, PaymentTermRule(CurrencyField));
  }

  lemma TermDeal(w: Writer)
    requires AnsweredTerm(w)
    ensures var p := PayloadFor(w); DealColumn in p && Settled(Link, p[DealColumn])
  {
    TermColumn(w, Deal, PaymentTermRule(Deal));
  }

  lemma TermCalculation(w: Writer)
    requires AnsweredTerm(w)
    ensures var p := PayloadFor(w);
      CalculationTypeCode in p && Chosen(p[CalculationTypeCode], CalcTypes)
      && p[CalculationTypeCode] == Get(Resolved(w), CalculationType)
  {
    TermColumn(w, CalculationType, PaymentTermRule(CalculationType));
  }

  lemma TermFixed(w: Writer)
    requires AnsweredTerm(w) && OneOf(Get(Resolved(w), CalculationType), ["fixed"])
    ensures Truthy(At(PayloadFor(w), FixedAmountColumn))
  {
    var rule := PaymentTermRule(FixedAmount);
    assert rule.when == [Condition(CalculationType, ["fixed"])];
    TermColumn(w, FixedAmount, rule);
  }

  lemma TermRate(w: Writer)
    requires AnsweredTerm(w) && OneOf(Get(Resolved(w), CalculationType), ["percentage"])
    ensures At(PayloadFor(w), RatePctColumn) != Nothing
  {
    var rule := PaymentTermRule(RatePct);
    assert rule.when == [Condition(CalculationType, ["percentage"])];
    TermColumn(w, RatePct, rule);
  }

  lemma TermBasis(w: Writer)
    requires AnsweredTerm(w) && OneOf(Get(Resolved(w), CalculationType), ["percentage"])
    ensures Truthy(At(PayloadFor(w), CalculationBasisCode))
  {
    var rule := PaymentTermRule(CalculationBasis);
    var words := ["percentage", "per_unit", "usage_based", "tiered", "custom"];
    assert words[0] == "percentage" && rule.when == [Condition(CalculationType, words)];
    TermColumn(w, CalculationBasis, rule);
  }

  lemma TermTranslates(w: Writer)
    requires AnsweredTerm(w)
    ensures TranslateTerm(PayloadFor(w)) == Inputs(TermInputsOf(PayloadFor(w)))
    ensures TermInputsOf(PayloadFor(w)).dealId != ""
  {
    TermDirection(w);
    TermCurrency(w);
    TermDeal(w);
    TermCalculation(w);
    SettledLink(PayloadFor(w)[DealColumn]);
  }

  lemma TermCalculationGiven(w: Writer)
    requires AnsweredTerm(w)
    ensures var x := TermInputsOf(PayloadFor(w)); CalculationGiven(x.calcType, x.fixedAmount, x.ratePct, x.calcBasis)
  {
    TermCalculation(w);
    if OneOf(Get(Resolved(w), CalculationType), ["fixed"]) { TermFixed(w); }
    if OneOf(Get(Resolved(w), CalculationType), ["percentage"]) {
      TermRate(w);
      TermBasis(w);
    }
  }

  /** A Payment Term completed from nothing by accepted answers always translates; its writer accepts it exactly when
      its calculation type is fixed or percentage.  The four other types the questions offer complete, and are then
      refused. */
  lemma AnsweredTermAccepted(w: Writer)
    requires AnsweredTerm(w)
    ensures CompletePayload(w) == Some(PayloadFor(w))
    ensures TranslateTerm(PayloadFor(w)) == Inputs(TermInputsOf(PayloadFor(w)))
    ensures TermFault(TermInputsOf(PayloadFor(w))) == None
       <==> OneOf(Get(Resolved(w), CalculationType), ["fixed", "percentage"])
  {
    TermTranslates(w);
    TermCalculation(w);
    TermCalculationGiven(w);
    TermDirection(w);
    TermCurrency(w);
  }

  lemma TypeIsAsked(s: string)
    requires IsCalcType(s) && s != ""
    ensures PaymentTermPlace(CalculationType) < |PaymentTermContract().fields|
    ensures var c := PaymentTermContract().fields[PaymentTermPlace(CalculationType)];
      c.name == CalculationType && Accepts(c, Word(s)) && Kept(c, Word(s)) == Word(s)
  {
    var rule := PaymentTermRule(CalculationType);
    PaymentTermEntry(CalculationType);
  }

  lemma TermOfType(s: string) returns (w: Writer)
    requires IsCalcType(s) && s != ""
    ensures AnsweredTerm(w) && Get(Resolved(w), CalculationType) == Word(s)
  {
    PaymentTermWellFormed();
    TypeIsAsked(s);
    var w0 := AnsweredExists(PaymentTermContract());
    AnswerStands(w0, PaymentTermPlace(CalculationType), Word(s));
    w := w0.(current := w0.current[CalculationType := Word(s)]);
  }

  /** Each of the four other types is completed by answers, translates, and is refused. */
  lemma OtherTypesAreRefused(s: string) returns (w: Writer)
    requires IsCalcType(s) && s !in ["fixed", "percentage"] && s != ""
    ensures AnsweredTerm(w) && Get(Resolved(w), CalculationType) == Word(s)
    ensures TermFault(TermInputsOf(PayloadFor(w))) != None
  {
    w := TermOfType(s);
    AnsweredTermAccepted(w);
  }

  lemma TieredIsRefused() returns (w: Writer)
    ensures AnsweredTerm(w) && TermFault(TermInputsOf(PayloadFor(w))) != None
  {
    assert "tiered"[0] != "fixed"[0] && "tiered"[0] != "percentage"[0];
    w := OtherTypesAreRefused("tiered");
  }
}
