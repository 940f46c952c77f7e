/** The words a choice field offers, by list. */
module Vocabulary {
  datatype ChoiceSet =
    | Directions | Currencies | VatRules | DocumentRequirements | DocumentStatuses
    | ChargeStatuses | CollectionStates | CalcTypes | CalcBases | Cadences
    | Triggers | DueRules | TermStatuses | RoleCategories | DealTypes
    | RelationshipTypes | BusinessDealTypes | RelationshipRoles | EngagementDurations | CommercialStatuses
    | EstimatedValueBases | EstimatedValueRanges | Stages | PaymentStatuses

  predicate IsDirection(s: string) { s in ["receivable", "payable", "internal"] }
  predicate IsCurrency(s: string) { s in ["ILS", "USD", "EUR"] }
  predicate IsVatRule(s: string) { s in ["none", "add", "included"] }
  predicate IsDocumentRequirement(s: string) {
    s in ["receipt_required", "invoice_required", "expense_document_required", "none"]
  }
  predicate IsDocumentStatus(s: string) {
    s in ["not_required", "required", "requested", "issued", "received", "stored"]
  }
  predicate IsChargeStatus(s: string) { s in ["draft", "issued", "due", "overdue", "cancelled", "written_off"] }
  predicate IsCollectionState(s: string) {
    s in ["not_due", "due", "partially_paid", "overdue", "promise_to_pay", "date_unknown", "paid",
          "cancelled", "written_off"]
  }
  predicate IsCalcType(s: string) { s in ["fixed", "percentage", "per_unit", "usage_based", "tiered", "custom"] }
  predicate IsCalcBasis(s: string) {
    s in ["monthly_salary", "first_salary", "deal_amount", "unit_count", "custom_amount",
          "transaction_amount", "sale_amount", "revenue", "commission_amount", "salary_amount",
          "usage_quantity"]
  }
  predicate IsCadence(s: string) {
    s in ["once", "weekly", "monthly", "quarterly", "annual", "installments", "event_based", "ongoing"]
  }
  predicate IsTrigger(s: string) { s in ["immediate", "specific_date", "after_period", "event_based", "manual"] }
  predicate IsDueRule(s: string) {
    s in ["due_immediately", "specific_due_date", "net_days", "scheduled", "installments"]
  }
  predicate IsTermStatus(s: string) { s in ["draft", "active", "paused", "ended", "cancelled"] }
  predicate IsRoleCategory(s: string) {
    s in ["lead", "broker", "expert", "supplier", "operator", "partner", "investor", "client", "other"]
  }
  predicate IsDealType(s: string) { s in ["one_off", "recurring", "commission", "service", "other"] }
  predicate IsRelationshipType(s: string) {
    s in ["one_off", "ongoing", "recurring_service", "commission_relationship", "partnership", "other"]
  }
  predicate IsBusinessDealType(s: string) { s in ["שירות", "מכירה", "עמלה / תיווך", "שותפות", "אחר"] }
  predicate IsRelationshipRole(s: string) { s in ["לקוח", "ספק", "שותף", "מפנה / מתווך", "אחר"] }
  predicate IsEngagementDuration(s: string) { s in ["חד-פעמית", "מתמשכת"] }
  predicate IsCommercialStatus(s: string) {
    s in ["prospect", "active", "at_risk", "completed", "cancelled", "written_off"]
  }
  predicate IsEstimatedValueBasis(s: string) { s in ["monthly", "total", "one_off"] }
  predicate IsEstimatedValueRange(s: string) {
    s in ["under_10k", "10k_100k", "100k_300k", "300k_1m", "over_1m", "unknown"]
  }
  predicate IsStage(s: string) { s in ["הזדמנות", "במשא ומתן", "סגור-ניצחון", "סגור-הפסד"] }
  predicate IsPaymentStatus(s: string) { s in ["received"] }

  predicate Offers(c: ChoiceSet, s: string) {
    match c
    case Directions => IsDirection(s)
    case Currencies => IsCurrency(s)
    case VatRules => IsVatRule(s)
    case DocumentRequirements => IsDocumentRequirement(s)
    case DocumentStatuses => IsDocumentStatus(s)
    case ChargeStatuses => IsChargeStatus(s)
    case CollectionStates => IsCollectionState(s)
    case CalcTypes => IsCalcType(s)
    case CalcBases => IsCalcBasis(s)
    case Cadences => IsCadence(s)
    case Triggers => IsTrigger(s)
    case DueRules => IsDueRule(s)
    case TermStatuses => IsTermStatus(s)
    case RoleCategories => IsRoleCategory(s)
    case DealTypes => IsDealType(s)
    case RelationshipTypes => IsRelationshipType(s)
    case BusinessDealTypes => IsBusinessDealType(s)
    case RelationshipRoles => IsRelationshipRole(s)
    case EngagementDurations => IsEngagementDuration(s)
    case CommercialStatuses => IsCommercialStatus(s)
    case EstimatedValueBases => IsEstimatedValueBasis(s)
    case EstimatedValueRanges => IsEstimatedValueRange(s)
    case Stages => IsStage(s)
    case PaymentStatuses => IsPaymentStatus(s)
  }

  /** One choice of each list. */
  function Sample(c: ChoiceSet): string {
    match c
    case Directions => "receivable"
    case Currencies => "ILS"
    case VatRules => "none"
    case DocumentRequirements => "receipt_required"
    case DocumentStatuses => "not_required"
    case ChargeStatuses => "draft"
    case CollectionStates => "not_due"
    case CalcTypes => "fixed"
    case CalcBases => "monthly_salary"
    case Cadences => "once"
    case Triggers => "immediate"
    case DueRules => "due_immediately"
    case TermStatuses => "draft"
    case RoleCategories => "lead"
    case DealTypes => "one_off"
    case RelationshipTypes => "one_off"
    case BusinessDealTypes => "שירות"
    case RelationshipRoles => "לקוח"
    case EngagementDurations => "חד-פעמית"
    case CommercialStatuses => "prospect"
    case EstimatedValueBases => "monthly"
    case EstimatedValueRanges => "under_10k"
    case Stages => "הזדמנות"
    case PaymentStatuses => "received"
  }

  lemma SampleIsOffered(c: ChoiceSet)
    ensures Offers(c, Sample(c)) && Sample(c) != ""
  {
  }

  lemma NoneIsOffered()
    ensures Offers(VatRules, "none") && Offers(DocumentRequirements, "none")
  {
  }

  lemma FirstStatesAreOffered()
    ensures Offers(ChargeStatuses, "draft") && Offers(CollectionStates, "not_due")
  {
  }

  lemma StatusesAreOffered()
    ensures Offers(DocumentStatuses, "not_required") && Offers(DocumentStatuses, "required")
  {
  }
}
