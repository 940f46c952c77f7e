/** A Charge completed by answers is one its writer accepts when its ids have the writer's length. */
module ChargeAnswers {
  import opened Prelude
  import opened Texts
  import opened DateAnswers
  import opened Vocabulary
  import opened CompletionEngine
  import opened CompletionAnswers
  import opened CompletionPayload
  import opened CommercialContracts
  import opened ContractLaws
  import opened CommercialChecks
  import opened CommercialTranslation

  ghost predicate AnsweredCharge(w: Writer) { w.contract == ChargeContract() && FromAnswers(w) && Complete(w) }

  lemma ChargeIsAnswered(w: Writer)
    requires AnsweredCharge(w)
    ensures AnsweredAll(w)
  {
    ChargeWellFormed();
    ChargeOwnColumns();
  }

  // ---- the columns of a Charge, one by one ----

  /** What the payload holds in the column of a field that can be asked for. */
  lemma ChargeColumn(w: Writer, f: Field, rule: Rule)
    requires AnsweredCharge(w) && ChargePlace(f) < 25 && rule == ChargeRule(f)
    requires rule.manual && rule.input != Computed && rule.persisted
    ensures var v := At(PayloadFor(w), ChargeColumnOf(f));
      && (ChargeColumnOf(f) in PayloadFor(w) <==> v != Nothing)
      && (v == Nothing || Settled(rule.input, v) || (v == rule.default && Present(v)))
      && (rule.required == Always || Present(rule.default) ==> v != Nothing)
      && v == Get(Resolved(w), f)
  {
    ChargeIsAnswered(w);
    ChargeEntry(f);
    ColumnFromAnswers(w, ChargePlace(f));
  }

  lemma ChargeDirection(w: Writer)
    requires AnsweredCharge(w)
    ensures DirectionColumn in PayloadFor(w) && Chosen(PayloadFor(w)[DirectionColumn], Directions)
  {
    ChargeColumn(w, DirectionField, ChargeRule(DirectionField));
  }

  lemma ChargeCurrency(w: Writer)
    requires AnsweredCharge(w)
    ensures CurrencyCode in PayloadFor(w) && Chosen(PayloadFor(w)[CurrencyCode], Currencies)
  {
    ChargeColumn(w, CurrencyField, ChargeRule(CurrencyField));
  }

  lemma ChargeVatRule(w: Writer)
    requires AnsweredCharge(w)
    ensures VatRuleColumn in PayloadFor(w) && Chosen(PayloadFor(w)[VatRuleColumn], VatRules)
  {
    ChargeColumn(w, VatRuleField, ChargeRule(VatRuleField));
    NoneIsOffered();
  }

  lemma ChargeStatus(w: Writer)
    requires AnsweredCharge(w)
    ensures StatusColumn in PayloadFor(w) && Chosen(PayloadFor(w)[StatusColumn], ChargeStatuses)
  {
    ChargeColumn(w, StatusField, ChargeRule(StatusField));
    FirstStatesAreOffered();
  }

  lemma ChargeCollectionState(w: Writer)
    requires AnsweredCharge(w)
    ensures CollectionStateColumn in PayloadFor(w) && Chosen(PayloadFor(w)[CollectionStateColumn], CollectionStates)
  {
    ChargeColumn(w, CollectionStateField, ChargeRule(CollectionStateField));
    FirstStatesAreOffered();
  }

  lemma ChargeAmount(w: Writer)
    requires AnsweredCharge(w)
    ensures AmountColumn in PayloadFor(w) && ValidNumber(PayloadFor(w)[AmountColumn], true)
  {
    ChargeColumn(w, Amount, ChargeRule(Amount));
  }

  lemma ChargeBaseAmount(w: Writer)
    requires AnsweredCharge(w)
    ensures ValidNumberOrAbsent(At(PayloadFor(w), BaseAmountColumn), false)
  {
    ChargeColumn(w, BaseAmount, ChargeRule(BaseAmount));
  }

  lemma ChargeVatAmount(w: Writer)
    requires AnsweredCharge(w)
    ensures ValidNumberOrAbsent(At(PayloadFor(w), VatAmountColumn), false)
  {
    ChargeColumn(w, VatAmount, ChargeRule(VatAmount));
  }

  lemma ChargeUnitRate(w: Writer)
    requires AnsweredCharge(w)
    ensures ValidNumberOrAbsent(At(PayloadFor(w), UnitRateColumn), true)
  {
    ChargeColumn(w, UnitRate, ChargeRule(UnitRate));
  }

  lemma ChargePromisedPaymentAmount(w: Writer)
    requires AnsweredCharge(w)
    ensures ValidNumberOrAbsent(At(PayloadFor(w), PromisedPaymentAmountColumn), true)
  {
    ChargeColumn(w, PromisedPaymentAmount, ChargeRule(PromisedPaymentAmount));
  }

  lemma ChargeQuantity(w: Writer)
    requires AnsweredCharge(w)
    ensures ValidNumberOrAbsent(At(PayloadFor(w), QuantityColumn), true)
  {
    ChargeColumn(w, Quantity, ChargeRule(Quantity));
  }

  lemma ChargeRatePct(w: Writer)
    requires AnsweredCharge(w)
    ensures At(PayloadFor(w), RatePctColumn) == Nothing
         || (At(PayloadFor(w), RatePctColumn).Number? && 0.0 <= At(PayloadFor(w), RatePctColumn).r <= 100.0)
  {
    ChargeColumn(w, RatePct, ChargeRule(RatePct));
  }

  lemma SettledDateIsValid(v: Value)
    requires v == Nothing || Settled(DateInput, v)
    ensures ValidDateOrAbsent(v)
  {
  }

  lemma ChargeOriginalDueDate(w: Writer)
    requires AnsweredCharge(w)
    ensures ValidDateOrAbsent(At(PayloadFor(w), OriginalDueDateColumn))
  {
    ChargeColumn(w, OriginalDueDate, ChargeRule(OriginalDueDate));
    SettledDateIsValid(At(PayloadFor(w), OriginalDueDateColumn));
  }

  lemma ChargeCurrentExpectedDate(w: Writer)
    requires AnsweredCharge(w)
    ensures ValidDateOrAbsent(At(PayloadFor(w), CurrentExpectedDateColumn))
  {
    ChargeColumn(w, CurrentExpectedDate, ChargeRule(CurrentExpectedDate));
    SettledDateIsValid(At(PayloadFor(w), CurrentExpectedDateColumn));
  }

  lemma ChargePromisedPaymentDate(w: Writer)
    requires AnsweredCharge(w)
    ensures ValidDateOrAbsent(At(PayloadFor(w), PromisedPaymentDateColumn))
  {
    ChargeColumn(w, PromisedPaymentDate, ChargeRule(PromisedPaymentDate));
    SettledDateIsValid(At(PayloadFor(w), PromisedPaymentDateColumn));
  }

  lemma ChargeDeal(w: Writer)
    requires AnsweredCharge(w)
    ensures DealColumn in PayloadFor(w) && Settled(Link, PayloadFor(w)[DealColumn])
    ensures At(PayloadFor(w), DealColumn) == Get(Resolved(w), Deal)
  {
    ChargeColumn(w, Deal, ChargeRule(Deal));
  }

  lemma ChargeBillingTerm(w: Writer)
    requires AnsweredCharge(w)
    ensures BillingTermColumn in PayloadFor(w) ==> Settled(Link, PayloadFor(w)[BillingTermColumn])
    ensures At(PayloadFor(w), BillingTermColumn) == Get(Resolved(w), BillingTerm)
    ensures BillingTermColumn in PayloadFor(w) <==> Get(Resolved(w), BillingTerm) != Nothing
  {
    ChargeColumn(w, BillingTerm, ChargeRule(BillingTerm));
  }

  lemma ChargeHasDocuments()
    ensures HasDocuments(ChargeContract(), ChargePlace(DocumentRequirement), ChargePlace(DocumentStatus))
  {
    ChargeEntry(DocumentRequirement);
    ChargeEntry(DocumentStatus);
    ChargeStatusOfDocument();
  }

  lemma ChargeDocuments(w: Writer)
    requires AnsweredCharge(w)
    ensures var p := PayloadFor(w);
      && DocumentRequirementColumn in p && DocumentStatusColumn in p
      && DocumentFault(p[DocumentRequirementColumn], p[DocumentStatusColumn]) == None
  {
    ChargeIsAnswered(w);
    ChargeHasDocuments();
    DocumentColumnsAgree(w, ChargePlace(DocumentRequirement), ChargePlace(DocumentStatus));
  }

  // ---- the whole payload ----

  predicate GoodChoices(p: Payload) {
    && DirectionColumn in p && Chosen(p[DirectionColumn], Directions)
    && CurrencyCode in p && Chosen(p[CurrencyCode], Currencies)
    && VatRuleColumn in p && Chosen(p[VatRuleColumn], VatRules)
    && StatusColumn in p && Chosen(p[StatusColumn], ChargeStatuses)
    && CollectionStateColumn in p && Chosen(p[CollectionStateColumn], CollectionStates)
  }

  predicate GoodDocuments(p: Payload) {
    && DocumentRequirementColumn in p && DocumentStatusColumn in p
    && DocumentFault(p[DocumentRequirementColumn], p[DocumentStatusColumn]) == None
  }

  predicate GoodLinks(p: Payload) {
    DealColumn in p && Settled(Link, p[DealColumn]) && (BillingTermColumn in p ==> Settled(Link, p[BillingTermColumn]))
  }

  /** All that the translation and the writer's checks need of a Charge's payload. */
  predicate GoodCharge(p: Payload) {
    && GoodChoices(p) && GoodDocuments(p) && GoodLinks(p)
    && AmountColumn in p && ValidNumber(p[AmountColumn], true)
    && ChargeNumberFault(ChargeInputsOf(p)) == None
  }

  lemma ChargeChoicesGood(w: Writer)
    requires AnsweredCharge(w)
    ensures GoodChoices(PayloadFor(w))
  {
    ChargeDirection(w);
    ChargeCurrency(w);
    ChargeVatRule(w);
    ChargeStatus(w);
    ChargeCollectionState(w);
  }

  /** The optional numbers and dates. */
  predicate GoodAmounts(p: Payload) {
    && ValidNumberOrAbsent(At(p, BaseAmountColumn), false)
    && ValidNumberOrAbsent(At(p, VatAmountColumn), false)
    && ValidNumberOrAbsent(At(p, UnitRateColumn), true)
    && ValidNumberOrAbsent(At(p, PromisedPaymentAmountColumn), true)
    && ValidNumberOrAbsent(At(p, QuantityColumn), true)
  }

  predicate GoodDates(p: Payload) {
    && ValidDateOrAbsent(At(p, OriginalDueDateColumn))
    && ValidDateOrAbsent(At(p, CurrentExpectedDateColumn))
    && ValidDateOrAbsent(At(p, PromisedPaymentDateColumn))
  }

  predicate GoodRate(p: Payload) {
    var v := At(p, RatePctColumn);
    v == Nothing || (v.Number? && 0.0 <= v.r <= 100.0)
  }

  lemma ChargeAmountsGood(w: Writer)
    requires AnsweredCharge(w)
    ensures GoodAmounts(PayloadFor(w))
  {
    ChargeBaseAmount(w);
    ChargeVatAmount(w);
    ChargeUnitRate(w);
    ChargePromisedPaymentAmount(w);
    ChargeQuantity(w);
  }

  lemma ChargeDatesGood(w: Writer)
    requires AnsweredCharge(w)
    ensures GoodDates(PayloadFor(w))
  {
    ChargeOriginalDueDate(w);
    ChargeCurrentExpectedDate(w);
    ChargePromisedPaymentDate(w);
  }

  lemma GoodNumbersPass(p: Payload)
    requires GoodAmounts(p) && GoodDates(p) && GoodRate(p)
    ensures ChargeNumberFault(ChargeInputsOf(p)) == None
  {
  }

  lemma AnsweredChargeIsGood(w: Writer)
    requires AnsweredCharge(w)
    ensures GoodCharge(PayloadFor(w))
  {
    ChargeChoicesGood(w);
    ChargeDocuments(w);
    ChargeDeal(w);
    ChargeBillingTerm(w);
    ChargeAmount(w);
    ChargeAmountsGood(w);
    ChargeDatesGood(w);
    ChargeRatePct(w);
    GoodNumbersPass(PayloadFor(w));
  }

  lemma GoodChargeTranslates(p: Payload)
    requires GoodCharge(p)
    ensures TranslateCharge(p) == Inputs(ChargeInputsOf(p))
    ensures var x := ChargeInputsOf(p);
      && x.dealId == TextOf(At(p, DealColumn)) && LooseRecordId(x.dealId)
      && x.billingTermId == TextOf(At(p, BillingTermColumn)) && (x.billingTermId == "" || LooseRecordId(x.billingTermId))
  {
    SettledLink(p[DealColumn]);
    if BillingTermColumn in p { SettledLink(p[BillingTermColumn]); }
  }

  lemma GoodChargePasses(p: Payload)
    requires GoodCharge(p)
    ensures ChargeValueFault(ChargeInputsOf(p)) == None
  {
  }

  /** A Charge completed from nothing by accepted answers translates, and passes every check its writer makes without
      reading a record, save one: an id of other than seventeen characters, which the answers admit and the writer does
      not.  So it is accepted exactly when its ids have that length. */
  lemma AnsweredChargeAccepted(w: Writer)
    requires AnsweredCharge(w)
    ensures CompletePayload(w) == Some(PayloadFor(w))
    ensures TranslateCharge(PayloadFor(w)) == Inputs(ChargeInputsOf(PayloadFor(w)))
    ensures ChargeFault(ChargeInputsOf(PayloadFor(w))) == None
       <==> |TextOf(Get(Resolved(w), Deal))| == 17
            && (Get(Resolved(w), BillingTerm) == Nothing || |TextOf(Get(Resolved(w), BillingTerm))| == 17)
  {
    AnsweredChargeIsGood(w);
    ChargeDeal(w);
    ChargeBillingTerm(w);
    GoodChargeTranslates(PayloadFor(w));
    GoodChargePasses(PayloadFor(w));
  }

  // ---- ids the writer does not take ----

  lemma DealIsAsked(s: string)
    requires LooseRecordId(s)
    ensures ChargePlace(Deal) < |ChargeContract().fields|
    ensures var c := ChargeContract().fields[ChargePlace(Deal)];
      c.name == Deal && Accepts(c, Word(s)) && Kept(c, Word(s)) == Word(s)
  {
    var rule := ChargeRule(Deal);
    ChargeEntry(Deal);
  }

  lemma ChargeOfDeal(s: string) returns (w: Writer)
    requires LooseRecordId(s)
    ensures AnsweredCharge(w) && Get(Resolved(w), Deal) == Word(s)
  {
    ChargeWellFormed();
    DealIsAsked(s);
    var w0 := AnsweredExists(ChargeContract());
    AnswerStands(w0, ChargePlace(Deal), Word(s));
    w := w0.(current := w0.current[Deal := Word(s)]);
  }

  /** Every id the answers admit that has not seventeen characters makes a Charge that is completed and translates, and
      is refused. */
  lemma OtherIdsAreRefused(s: string) returns (w: Writer)
    requires LooseRecordId(s) && |s| != 17
    ensures AnsweredCharge(w) && Get(Resolved(w), Deal) == Word(s)
    ensures ChargeFault(ChargeInputsOf(PayloadFor(w))) != None
  {
    w := ChargeOfDeal(s);
    AnsweredChargeAccepted(w);
  }

  lemma ShortIdIsRefused() returns (w: Writer)
    ensures AnsweredCharge(w) && ChargeFault(ChargeInputsOf(PayloadFor(w))) != None
  {
    SamplesAreAccepted();
    w := OtherIdsAreRefused(SampleId);
  }
}
