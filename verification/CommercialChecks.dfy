/** What the writers ask of the values they are given, before and apart from any record they read. */
module CommercialChecks {
  import opened Prelude
  import opened Texts
  import opened DateAnswers
  import opened Vocabulary
  import opened CompletionEngine
  import opened CompletionAnswers
  import opened CommercialContracts

  predicate ValidNumber(v: Value, positive: bool) {
    NumberOf(v).Some? && if positive then NumberOf(v).value > 0.0 else NumberOf(v).value >= 0.0
  }

  /** What a condition on a value takes as true. */
  predicate Truthy(v: Value) {
    match v
    case Nothing => false
    case Text(s, _) => s != ""
    case Number(r) => r != 0.0
    case Flag(b) => b
    case Items(items) => items != []
    case Tokens(_, _) => true
    case Offer(_, _, _, _) => true
  }

  predicate ValidDateOrAbsent(v: Value) { Truthy(v) ==> v.Text? && StrictIsoDate(v.s) }

  predicate ValidNumberOrAbsent(v: Value, positive: bool) { v != Nothing ==> ValidNumber(v, positive) }

  /** No document is asked for exactly when the status says none is. */
  predicate DocumentPair(requirement: Value, status: Value) {
    OneOf(requirement, ["none"]) <==> OneOf(status, ["not_required"])
  }

  /** An absent optional argument is Nothing, an absent link "". */
  datatype ChargeInputs = ChargeInputs(
    dealId: string, direction: Value, amount: Value, currency: Value, status: Value, collectionState: Value,
    vatRule: Value, requirement: Value, documentStatus: Value,
    billingTermId: string, leadId: string, reference: Value, originalDueDate: Value, currentExpectedDate: Value,
    baseAmount: Value, ratePct: Value, quantity: Value, unitRate: Value, vatAmount: Value,
    promisedDate: Value, promisedAmount: Value, notes: Value)

  datatype Fault = BadDealId | BadTermId | BadDirection | BadCurrency | BadStatus | BadCollectionState | BadVatRule
                 | BadRequirement | BadDocumentStatus | BadDocumentPair | BadAmount | BadNumber | BadRate | BadDate
                 | BadChargeId | BadCounterpartyId | BadCalculation

  function DocumentFault(requirement: Value, status: Value): Option<Fault> {
    if !Chosen(requirement, DocumentRequirements) then Some(BadRequirement)
    else if !Chosen(status, DocumentStatuses) then Some(BadDocumentStatus)
    else if !DocumentPair(requirement, status) then Some(BadDocumentPair)
    else None
  }

  function ChargeNumberFault(x: ChargeInputs): Option<Fault> {
    if !(ValidNumberOrAbsent(x.baseAmount, false) && ValidNumberOrAbsent(x.ratePct, false)
         && ValidNumberOrAbsent(x.quantity, true) && ValidNumberOrAbsent(x.unitRate, true)
         && ValidNumberOrAbsent(x.vatAmount, false) && ValidNumberOrAbsent(x.promisedAmount, true)) then Some(BadNumber)
    else if x.ratePct != Nothing && NumberOf(x.ratePct).Some? && NumberOf(x.ratePct).value > 100.0 then Some(BadRate)
    else if !(ValidDateOrAbsent(x.originalDueDate) && ValidDateOrAbsent(x.currentExpectedDate)
              && ValidDateOrAbsent(x.promisedDate)) then Some(BadDate)
    else None
  }

  /** The checks on the values of a new Charge, in their order. */
  function ChargeValueFault(x: ChargeInputs): Option<Fault> {
    if !Chosen(x.direction, Directions) then Some(BadDirection)
    else if !Chosen(x.currency, Currencies) then Some(BadCurrency)
    else if !Chosen(x.status, ChargeStatuses) then Some(BadStatus)
    else if !Chosen(x.collectionState, CollectionStates) then Some(BadCollectionState)
    else if !Chosen(x.vatRule, VatRules) then Some(BadVatRule)
    else if DocumentFault(x.requirement, x.documentStatus).Some? then DocumentFault(x.requirement, x.documentStatus)
    else if !ValidNumber(x.amount, true) then Some(BadAmount)
    else ChargeNumberFault(x)
  }

  /** Every check on a new Charge that no record is needed for. */
  function ChargeFault(x: ChargeInputs): Option<Fault> {
    if !RecordId(x.dealId) then Some(BadDealId)
    else if x.billingTermId != "" && !RecordId(x.billingTermId) then Some(BadTermId)
    else ChargeValueFault(x)
  }

  datatype PaymentInputs = PaymentInputs(
    chargeId: string, dealId: string, direction: Value, amount: Value, currency: Value, paidAt: Value, status: Value,
    requirement: Value, documentStatus: Value, paymentTermId: string, reference: Value, means: Value,
    contactId: string, organizationId: string, notes: Value)

  function PaymentValueFault(x: PaymentInputs): Option<Fault> {
    if !ValidNumber(x.amount, true) then Some(BadAmount)
    else if !(x.paidAt.Text? && StrictIsoDate(x.paidAt.s)) then Some(BadDate)
    else if !OneOf(x.status, ["received"]) then Some(BadStatus)
    else DocumentFault(x.requirement, x.documentStatus)
  }

  /** Every check on a new Payment that no record is needed for. */
  function PaymentFault(x: PaymentInputs): Option<Fault> {
    if !RecordId(x.chargeId) then Some(BadChargeId)
    else if !Chosen(x.direction, Directions) then Some(BadDirection)
    else if !Chosen(x.currency, Currencies) then Some(BadCurrency)
    else if PaymentValueFault(x).Some? then PaymentValueFault(x)
    else if x.paymentTermId != "" && !RecordId(x.paymentTermId) then Some(BadTermId)
    else if x.contactId != "" && !RecordId(x.contactId) then Some(BadCounterpartyId)
    else if x.organizationId != "" && !RecordId(x.organizationId) then Some(BadCounterpartyId)
    else None
  }

  datatype TermInputs = TermInputs(
    dealId: string, name: Value, calcType: Value, direction: Value, currency: Value, fixedAmount: Value, ratePct: Value,
    calcBasis: Value, triggerType: Value, triggerDate: Value, triggerDelayDays: Value, cadence: Value, vatRule: Value,
    startDate: Value, endDate: Value, notes: Value)

  /** A fixed Term has a non-zero amount, a percentage Term a rate and a basis. */
  predicate CalculationGiven(calcType: Value, fixedAmount: Value, ratePct: Value, calcBasis: Value) {
    && (OneOf(calcType, ["fixed"]) ==> Truthy(fixedAmount))
    && (OneOf(calcType, ["percentage"]) ==> ratePct != Nothing && Truthy(calcBasis))
  }

  /** Every check on a new Payment Term; the Deal's id is only asked to be there. */
  function TermFault(x: TermInputs): Option<Fault> {
    if x.dealId == "" then Some(BadDealId)
    else if !OneOf(x.calcType, ["fixed", "percentage"]) then Some(BadCalculation)
    else if !CalculationGiven(x.calcType, x.fixedAmount, x.ratePct, x.calcBasis) then Some(BadCalculation)
    else if !Chosen(x.direction, Directions) then Some(BadDirection)
    else if !Chosen(x.currency, Currencies) then Some(BadCurrency)
    else None
  }
}
