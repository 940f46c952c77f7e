/** Which value each argument of a writer is: that of its own field, wherever the entity's values came from. */
module WriterArguments {
  import opened Prelude
  import opened Texts
  import opened CompletionEngine
  import opened CompletionAnswers
  import opened CompletionPayload
  import opened CommercialContracts
  import opened ContractLaws
  import opened CommercialChecks
  import opened CommercialTranslation

  /** The id a link stands for: the only one of a list, or the text without blanks around it. */
  predicate IsLink(id: string, v: Value) {
    match v
    case Text(s, _) => id == Strip(s)
    case Items(items) => id == if |items| == 1 then Strip(items[0]) else ""
    case _ => id == ""
  }

  /** The value of a field, or this word without one. */
  predicate ElseWord(v: Value, given: Value, word: string) { v == if given == Nothing then Text(word, None) else given }

  lemma LinkOfColumn(p: Payload, col: Column)
    ensures IsLink(LinkOr(p, col), At(p, col))
  {
  }

  /** A carried column holds what its field resolved to, or is not there. */
  lemma ColumnIsResolved(w: Writer, i: nat)
    requires WellFormed(w.contract) && OwnColumns(w.contract.fields) && i < |w.contract.fields| && Carried(w.contract.fields[i])
    ensures At(PayloadFor(w), w.contract.fields[i].column) == Get(Resolved(w), w.contract.fields[i].name)
  {
    PayloadAt(Resolved(w), w.contract.fields, i);
    ResolvedAt(w, w.contract.fields, i);
    FirstPresentOrNothing(w, w.contract.fields[i], SOURCES, Resolve(w, w.contract.fields[..i]));
  }

  predicate CarriedRule(r: Rule) { r.persisted && r.input != Computed }

  /** Points a proof at one field. */
  predicate Here(f: Field) { true }

  // ---- a Charge ----

  lemma ChargeArgument(w: Writer, f: Field, rule: Rule)
    requires w.contract == ChargeContract() && ChargePlace(f) < 25 && rule == ChargeRule(f) && CarriedRule(rule)
    ensures At(PayloadFor(w), ChargeColumnOf(f)) == Get(Resolved(w), f)
  {
    ChargeWellFormed();
    ChargeOwnColumns();
    ChargeEntry(f);
    ColumnIsResolved(w, ChargePlace(f));
  }

  lemma EarlyChargeRule(f: Field)
    requires ChargePlace(f) < 15
    ensures CarriedRule(ChargeRule(f))
  {
    match f {
      case Reference | Deal | BillingTerm | DirectionField | Amount =>
      case CurrencyField | OriginalDueDate | CurrentExpectedDate | StatusField | CollectionStateField =>
      case BaseAmount | RatePct | Quantity | UnitRate | VatRuleField =>
    }
  }

  lemma LateChargeRule(f: Field)
    requires 15 <= ChargePlace(f) < 25 && f != TotalPaid && f != RemainingBalance
    ensures CarriedRule(ChargeRule(f))
  {
    match f {
      case VatAmount | TriggerEvidence | OriginalTermsSnapshot | PromisedPaymentDate | PromisedPaymentAmount =>
      case DocumentRequirement | DocumentStatus | Notes =>
    }
  }

  lemma ChargeRuleCarries(f: Field)
    requires ChargePlace(f) < 25 && f != TotalPaid && f != RemainingBalance
    ensures CarriedRule(ChargeRule(f))
  {
    if ChargePlace(f) < 15 { EarlyChargeRule(f); } else { LateChargeRule(f); }
  }

  /** Every carried field has its value in its column. */
  ghost predicate ChargeColumns(p: Payload, v: Values) {
    forall f {:trigger Here(f)} ::
      Here(f) && ChargePlace(f) < 25 && f != TotalPaid && f != RemainingBalance ==> At(p, ChargeColumnOf(f)) == Get(v, f)
  }

  lemma ChargeColumnsHold(w: Writer)
    requires w.contract == ChargeContract()
    ensures ChargeColumns(PayloadFor(w), Resolved(w))
  {
    forall f | Here(f) && ChargePlace(f) < 25 && f != TotalPaid && f != RemainingBalance
      ensures At(PayloadFor(w), ChargeColumnOf(f)) == Get(Resolved(w), f)
    {
      ChargeRuleCarries(f);
      ChargeArgument(w, f, ChargeRule(f));
    }
  }

  lemma ChargeHolds(p: Payload, v: Values, f: Field, col: Column)
    requires ChargeColumns(p, v) && ChargePlace(f) < 25 && f != TotalPaid && f != RemainingBalance && col == ChargeColumnOf(f)
    ensures At(p, col) == Get(v, f)
  {
    assert Here(f);
  }

  predicate ChargeLinksFrom(x: ChargeInputs, v: Values) {
    && IsLink(x.dealId, Get(v, Deal)) && IsLink(x.billingTermId, Get(v, BillingTerm)) && x.leadId == ""
  }

  predicate ChargeWordsFrom(x: ChargeInputs, v: Values) {
    && x.direction == Get(v, DirectionField) && x.currency == Get(v, CurrencyField)
    && x.status == Get(v, StatusField) && x.collectionState == Get(v, CollectionStateField)
  }

  predicate ChargePapersFrom(x: ChargeInputs, v: Values) {
    && x.vatRule == Get(v, VatRuleField) && x.requirement == Get(v, DocumentRequirement)
    && x.documentStatus == Get(v, DocumentStatus) && x.notes == Get(v, Notes)
  }

  predicate ChargeSumsFrom(x: ChargeInputs, v: Values) {
    && x.amount == Get(v, Amount) && x.baseAmount == Get(v, BaseAmount) && x.vatAmount == Get(v, VatAmount)
  }

  predicate ChargeRatesFrom(x: ChargeInputs, v: Values) {
    && x.ratePct == Get(v, RatePct) && x.quantity == Get(v, Quantity) && x.unitRate == Get(v, UnitRate)
  }

  predicate ChargeDatesFrom(x: ChargeInputs, v: Values) {
    && x.originalDueDate == Get(v, OriginalDueDate) && x.currentExpectedDate == Get(v, CurrentExpectedDate)
  }

  predicate ChargePromiseFrom(x: ChargeInputs, v: Values) {
    && x.promisedDate == Get(v, PromisedPaymentDate) && x.promisedAmount == Get(v, PromisedPaymentAmount)
  }

  lemma ChargeLinksArrive(p: Payload, v: Values)
    requires ChargeColumns(p, v)
    ensures ChargeLinksFrom(ChargeInputsOf(p), v)
  {
    ChargeHolds(p, v, Deal, DealColumn);
    ChargeHolds(p, v, BillingTerm, BillingTermColumn);
    LinkOfColumn(p, DealColumn);
    LinkOfColumn(p, BillingTermColumn);
  }

  lemma ChargeWordsArrive(p: Payload, v: Values)
    requires ChargeColumns(p, v)
    ensures ChargeWordsFrom(ChargeInputsOf(p), v)
  {
    ChargeHolds(p, v, DirectionField, DirectionColumn);
    ChargeHolds(p, v, CurrencyField, CurrencyCode);
    ChargeHolds(p, v, StatusField, StatusColumn);
    ChargeHolds(p, v, CollectionStateField, CollectionStateColumn);
  }

  lemma ChargePapersArrive(p: Payload, v: Values)
    requires ChargeColumns(p, v)
    ensures ChargePapersFrom(ChargeInputsOf(p), v)
  {
    ChargeHolds(p, v, VatRuleField, VatRuleColumn);
    ChargeHolds(p, v, DocumentRequirement, DocumentRequirementColumn);
    ChargeHolds(p, v, DocumentStatus, DocumentStatusColumn);
    ChargeHolds(p, v, Notes, NotesColumn);
  }

  lemma ChargeSumsArrive(p: Payload, v: Values)
    requires ChargeColumns(p, v)
    ensures ChargeSumsFrom(ChargeInputsOf(p), v)
  {
    ChargeHolds(p, v, Amount, AmountColumn);
    ChargeHolds(p, v, BaseAmount, BaseAmountColumn);
    ChargeHolds(p, v, VatAmount, VatAmountColumn);
  }

  lemma ChargeRatesArrive(p: Payload, v: Values)
    requires ChargeColumns(p, v)
    ensures ChargeRatesFrom(ChargeInputsOf(p), v)
  {
    ChargeHolds(p, v, RatePct, RatePctColumn);
    ChargeHolds(p, v, Quantity, QuantityColumn);
    ChargeHolds(p, v, UnitRate, UnitRateColumn);
  }

  lemma ChargeDatesArrive(p: Payload, v: Values)
    requires ChargeColumns(p, v)
    ensures ChargeDatesFrom(ChargeInputsOf(p), v)
  {
    ChargeHolds(p, v, OriginalDueDate, OriginalDueDateColumn);
    ChargeHolds(p, v, CurrentExpectedDate, CurrentExpectedDateColumn);
  }

  lemma ChargePromiseArrive(p: Payload, v: Values)
    requires ChargeColumns(p, v)
    ensures ChargePromiseFrom(ChargeInputsOf(p), v)
  {
    ChargeHolds(p, v, PromisedPaymentDate, PromisedPaymentDateColumn);
    ChargeHolds(p, v, PromisedPaymentAmount, PromisedPaymentAmountColumn);
  }

  /** Each argument of the Charge writer is what the field of its name resolved to; no Lead is passed on. */
  lemma ChargeArguments(w: Writer)
    requires w.contract == ChargeContract()
    ensures var x, v := ChargeInputsOf(PayloadFor(w)), Resolved(w);
      && ChargeLinksFrom(x, v) && ChargeWordsFrom(x, v) && ChargePapersFrom(x, v) && ChargeSumsFrom(x, v)
      && ChargeRatesFrom(x, v) && ChargeDatesFrom(x, v) && ChargePromiseFrom(x, v)
  {
    var p, v := PayloadFor(w), Resolved(w);
    ChargeColumnsHold(w);
    ChargeLinksArrive(p, v);
    ChargeWordsArrive(p, v);
    ChargePapersArrive(p, v);
    ChargeSumsArrive(p, v);
    ChargeRatesArrive(p, v);
    ChargeDatesArrive(p, v);
    ChargePromiseArrive(p, v);
  }

  // ---- a Payment ----

  lemma PaymentArgument(w: Writer, f: Field, rule: Rule)
    requires w.contract == PaymentContract() && PaymentPlace(f) < 15 && rule == PaymentRule(f) && CarriedRule(rule)
    ensures At(PayloadFor(w), PaymentColumnOf(f)) == Get(Resolved(w), f)
  {
    PaymentWellFormed();
    PaymentOwnColumns();
    PaymentEntry(f);
    ColumnIsResolved(w, PaymentPlace(f));
  }

  lemma PaymentRuleCarries(f: Field)
    requires PaymentPlace(f) < 15
    ensures CarriedRule(PaymentRule(f))
  {
    match f {
      case Charge | Amount | PaidAt | DirectionField | CurrencyField =>
      case StatusField | Reference | Method | Deal | PaymentTerm =>
      case CounterpartyContact | CounterpartyOrganization | DocumentRequirement | DocumentStatus | Notes =>
    }
  }

  /** Every carried field has its value in its column. */
  ghost predicate PaymentColumns(p: Payload, v: Values) {
    forall f {:trigger Here(f)} ::
      Here(f) && PaymentPlace(f) < 15 ==> At(p, PaymentColumnOf(f)) == Get(v, f)
  }

  lemma PaymentColumnsHold(w: Writer)
    requires w.contract == PaymentContract()
    ensures PaymentColumns(PayloadFor(w), Resolved(w))
  {
    forall f | Here(f) && PaymentPlace(f) < 15
      ensures At(PayloadFor(w), PaymentColumnOf(f)) == Get(Resolved(w), f)
    {
      PaymentRuleCarries(f);
      PaymentArgument(w, f, PaymentRule(f));
    }
  }

  lemma PaymentHolds(p: Payload, v: Values, f: Field, col: Column)
    requires PaymentColumns(p, v) && PaymentPlace(f) < 15 && col == PaymentColumnOf(f)
    ensures At(p, col) == Get(v, f)
  {
    assert Here(f);
  }

  predicate PaymentLinksFrom(x: PaymentInputs, v: Values) {
    && IsLink(x.chargeId, Get(v, Charge)) && IsLink(x.dealId, Get(v, Deal))
    && IsLink(x.paymentTermId, Get(v, PaymentTerm))
  }

  predicate PaymentPartiesFrom(x: PaymentInputs, v: Values) {
    && IsLink(x.contactId, Get(v, CounterpartyContact))
    && IsLink(x.organizationId, Get(v, CounterpartyOrganization))
  }

  predicate PaymentSumFrom(x: PaymentInputs, v: Values) {
    && x.direction == Get(v, DirectionField) && x.amount == Get(v, Amount)
    && x.currency == Get(v, CurrencyField) && x.paidAt == Get(v, PaidAt)
  }

  predicate PaymentPapersFrom(x: PaymentInputs, v: Values) {
    && x.status == Get(v, StatusField) && x.requirement == Get(v, DocumentRequirement)
    && x.documentStatus == Get(v, DocumentStatus)
  }

  predicate PaymentNotesFrom(x: PaymentInputs, v: Values) {
    && x.reference == Get(v, Reference) && x.means == Get(v, Method) && x.notes == Get(v, Notes)
  }

  lemma PaymentLinksArrive(p: Payload, v: Values)
    requires PaymentColumns(p, v)
    ensures PaymentLinksFrom(PaymentInputsOf(p), v)
  {
    PaymentHolds(p, v, Charge, ChargeColumn);
    PaymentHolds(p, v, Deal, DealIdKey);
    PaymentHolds(p, v, PaymentTerm, PaymentTermColumn);
    LinkOfColumn(p, ChargeColumn);
    LinkOfColumn(p, DealIdKey);
    LinkOfColumn(p, PaymentTermColumn);
  }

  lemma PaymentPartiesArrive(p: Payload, v: Values)
    requires PaymentColumns(p, v)
    ensures PaymentPartiesFrom(PaymentInputsOf(p), v)
  {
    PaymentHolds(p, v, CounterpartyContact, CounterpartyContactColumn);
    PaymentHolds(p, v, CounterpartyOrganization, CounterpartyOrganizationColumn);
    LinkOfColumn(p, CounterpartyContactColumn);
    LinkOfColumn(p, CounterpartyOrganizationColumn);
  }

  lemma PaymentSumArrive(p: Payload, v: Values)
    requires PaymentColumns(p, v)
    ensures PaymentSumFrom(PaymentInputsOf(p), v)
  {
    PaymentHolds(p, v, DirectionField, DirectionColumn);
    PaymentHolds(p, v, Amount, LowerAmount);
    PaymentHolds(p, v, CurrencyField, CurrencyColumn);
    PaymentHolds(p, v, PaidAt, PaidAtColumn);
  }

  lemma PaymentPapersArrive(p: Payload, v: Values)
    requires PaymentColumns(p, v)
    ensures PaymentPapersFrom(PaymentInputsOf(p), v)
  {
    PaymentHolds(p, v, StatusField, LowerStatus);
    PaymentHolds(p, v, DocumentRequirement, DocumentRequirementColumn);
    PaymentHolds(p, v, DocumentStatus, DocumentStatusColumn);
  }

  lemma PaymentNotesArrive(p: Payload, v: Values)
    requires PaymentColumns(p, v)
    ensures PaymentNotesFrom(PaymentInputsOf(p), v)
  {
    PaymentHolds(p, v, Reference, LowerReference);
    PaymentHolds(p, v, Method, MethodColumn);
    PaymentHolds(p, v, Notes, NotesColumn);
  }

  /** Each argument of the Payment writer is what the field of its name resolved to. */
  lemma PaymentArguments(w: Writer)
    requires w.contract == PaymentContract()
    ensures var x, v := PaymentInputsOf(PayloadFor(w)), Resolved(w);
      && PaymentLinksFrom(x, v) && PaymentPartiesFrom(x, v) && PaymentSumFrom(x, v)
      && PaymentPapersFrom(x, v) && PaymentNotesFrom(x, v)
  {
    var p, v := PayloadFor(w), Resolved(w);
    PaymentColumnsHold(w);
    PaymentLinksArrive(p, v);
    PaymentPartiesArrive(p, v);
    PaymentSumArrive(p, v);
    PaymentPapersArrive(p, v);
    PaymentNotesArrive(p, v);
  }

  // ---- a Payment Term ----

  lemma TermArgument(w: Writer, f: Field, rule: Rule)
    requires w.contract == PaymentTermContract() && PaymentTermPlace(f) < 30 && rule == PaymentTermRule(f) && CarriedRule(rule)
    ensures At(PayloadFor(w), PaymentTermColumnOf(f)) == Get(Resolved(w), f)
  {
    PaymentTermWellFormed();
    PaymentTermOwnColumns();
    PaymentTermEntry(f);
    ColumnIsResolved(w, PaymentTermPlace(f));
  }

  lemma EarlyTermRule(f: Field)
    requires PaymentTermPlace(f) < 15
    ensures CarriedRule(PaymentTermRule(f))
  {
    match f {
      case Deal | Name | DirectionField | CalculationType | FixedAmount =>
      case RatePct | CalculationBasis | TierConfiguration | CustomCalculationRule | UnitRate =>
      case MinimumAmount | MaximumAmount | Cadence | InstallmentCount | TriggerType =>
    }
  }

  lemma LateTermRule(f: Field)
    requires 15 <= PaymentTermPlace(f) < 30 && f != NextDueDate
    ensures CarriedRule(PaymentTermRule(f))
  {
    match f {
      case TriggerDate | TriggerDelayDays | TriggerEvent | DueRule | SpecificDueDate =>
      case ScheduleAnchorDate | NetDays | GracePeriodDays | CurrencyField | StatusField =>
      case VatRuleField | StartDate | EndDate | Notes =>
    }
  }

  lemma TermRuleCarries(f: Field)
    requires PaymentTermPlace(f) < 30 && f != NextDueDate
    ensures CarriedRule(PaymentTermRule(f))
  {
    if PaymentTermPlace(f) < 15 { EarlyTermRule(f); } else { LateTermRule(f); }
  }

  /** Every carried field has its value in its column. */
  ghost predicate TermColumns(p: Payload, v: Values) {
    forall f {:trigger Here(f)} ::
      Here(f) && PaymentTermPlace(f) < 30 && f != NextDueDate ==> At(p, PaymentTermColumnOf(f)) == Get(v, f)
  }

  lemma TermColumnsHold(w: Writer)
    requires w.contract == PaymentTermContract()
    ensures TermColumns(PayloadFor(w), Resolved(w))
  {
    forall f | Here(f) && PaymentTermPlace(f) < 30 && f != NextDueDate
      ensures At(PayloadFor(w), PaymentTermColumnOf(f)) == Get(Resolved(w), f)
    {
      TermRuleCarries(f);
      TermArgument(w, f, PaymentTermRule(f));
    }
  }

  lemma TermHolds(p: Payload, v: Values, f: Field, col: Column)
    requires TermColumns(p, v) && PaymentTermPlace(f) < 30 && f != NextDueDate && col == PaymentTermColumnOf(f)
    ensures At(p, col) == Get(v, f)
  {
    assert Here(f);
  }

  predicate TermDealFrom(x: TermInputs, v: Values) {
    && IsLink(x.dealId, Get(v, Deal)) && ElseWord(x.name, Get(v, Name), "Payment Term")
    && x.direction == Get(v, DirectionField) && x.currency == Get(v, CurrencyField)
  }

  predicate TermSumsFrom(x: TermInputs, v: Values) {
    && x.calcType == Get(v, CalculationType) && x.fixedAmount == Get(v, FixedAmount)
    && x.ratePct == Get(v, RatePct) && x.calcBasis == Get(v, CalculationBasis)
  }

  predicate TermTriggerFrom(x: TermInputs, v: Values) {
    && ElseWord(x.triggerType, Get(v, TriggerType), "immediate") && x.triggerDate == Get(v, TriggerDate)
    && x.triggerDelayDays == Get(v, TriggerDelayDays) && ElseWord(x.cadence, Get(v, Cadence), "once")
  }

  predicate TermTimesFrom(x: TermInputs, v: Values) {
    && ElseWord(x.vatRule, Get(v, VatRuleField), "none") && x.startDate == Get(v, StartDate)
    && x.endDate == Get(v, EndDate) && x.notes == Get(v, Notes)
  }

  lemma TermDealArrive(p: Payload, v: Values)
    requires TermColumns(p, v)
    ensures TermDealFrom(TermInputsOf(p), v)
  {
    TermHolds(p, v, Deal, DealColumn);
    TermHolds(p, v, Name, NameColumn);
    TermHolds(p, v, DirectionField, DirectionColumn);
    TermHolds(p, v, CurrencyField, CurrencyColumn);
    LinkOfColumn(p, DealColumn);
  }

  lemma TermSumsArrive(p: Payload, v: Values)
    requires TermColumns(p, v)
    ensures TermSumsFrom(TermInputsOf(p), v)
  {
    TermHolds(p, v, CalculationType, CalculationTypeCode);
    TermHolds(p, v, FixedAmount, FixedAmountColumn);
    TermHolds(p, v, RatePct, RatePctColumn);
    TermHolds(p, v, CalculationBasis, CalculationBasisCode);
  }

  lemma TermTriggerArrive(p: Payload, v: Values)
    requires TermColumns(p, v)
    ensures TermTriggerFrom(TermInputsOf(p), v)
  {
    TermHolds(p, v, TriggerType, TriggerTypeCode);
    TermHolds(p, v, TriggerDate, TriggerDateColumn);
    TermHolds(p, v, TriggerDelayDays, TriggerDelayDaysColumn);
    TermHolds(p, v, Cadence, CadenceCode);
  }

  lemma TermTimesArrive(p: Payload, v: Values)
    requires TermColumns(p, v)
    ensures TermTimesFrom(TermInputsOf(p), v)
  {
    TermHolds(p, v, VatRuleField, VatRuleColumn);
    TermHolds(p, v, StartDate, StartDateColumn);
    TermHolds(p, v, EndDate, EndDateColumn);
    TermHolds(p, v, Notes, NotesColumn);
  }

  /** Each argument of the Term writer is what the field of its name resolved to, or the standing word without one. */
  lemma TermArguments(w: Writer)
    requires w.contract == PaymentTermContract()
    ensures var x, v := TermInputsOf(PayloadFor(w)), Resolved(w);
      && TermDealFrom(x, v) && TermSumsFrom(x, v)
      && TermTriggerFrom(x, v) && TermTimesFrom(x, v)
  {
    var p, v := PayloadFor(w), Resolved(w);
    TermColumnsHold(w);
    TermDealArrive(p, v);
    TermSumsArrive(p, v);
    TermTriggerArrive(p, v);
    TermTimesArrive(p, v);
  }
}
