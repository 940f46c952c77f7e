/** The completion contracts of the entities the router supports. */
module CommercialContracts {
  import opened Prelude
  import opened Vocabulary
  import opened CompletionEngine
  import opened CompletionAnswers

  function LinkTo(inherit: seq<ContextKey>): Rule { Plain(Link).(inherit := inherit) }

  function OneFrom(choices: ChoiceSet): Rule { Plain(Select(choices)) }

  function Money(bound: Bound): Rule { Plain(CurrencyInput(bound)) }

  function System(): Rule { Plain(Computed).(manual := false) }

  function When(rule: Rule, f: Field, words: seq<string>): Rule {
    rule.(required := Conditional, when := [Condition(f, words)])
  }

  /** The document status of charges and payments: derived, never asked for. */
  function StatusOfDocument(): Rule {
    OneFrom(DocumentStatuses).(derived := true, manual := false)
  }

  function RequirementOfDocument(): Rule { OneFrom(DocumentRequirements).(default := Word("none")) }

  /** The contract fields in order: `row` gives the field and the column of each place, `rule` what is said of it. */
  function Table(n: nat, row: nat -> (Field, Column), rule: Field -> Rule): seq<FieldContract> {
    seq(n, i requires 0 <= i < n => FieldContract(row(i).0, row(i).1, rule(row(i).0), None))
  }

  // ---- Contact ----

  function ContactRow(i: nat): (Field, Column) {
    match i
    case 0 => (Name, ContactNameColumn)
    case 1 => (Phone, ContactPhone)
    case 2 => (Email, ContactEmail)
    case 3 => (Company, ContactCompany)
    case _ => (RoleCategory, RoleCategoryColumn)
  }

  function ContactRule(f: Field): Rule {
    match f
    case Name => Plain(TextInput(AnyText)).(required := Always, inherit := [NameKey])
    case Phone => Plain(TextInput(PhoneText)).(required := Always, inherit := [PhoneKey])
    case Email => Plain(TextInput(EmailText)).(inherit := [EmailKey])
    case Company => Plain(TextInput(AnyText)).(inherit := [CompanyKey, OrganizationNameKey])
    case RoleCategory => OneFrom(RoleCategories)
    case _ => System()
  }

  function ContactContract(): EntityContract {
    EntityContract(ContactEntity, Table(5, ContactRow, ContactRule), [], false)
  }

  // ---- Organization ----

  function OrganizationRow(i: nat): (Field, Column) { (OrganizationName, OrganizationNameColumn) }

  function OrganizationRule(f: Field): Rule {
    match f
    case OrganizationName =>
      Plain(TextInput(AnyText)).(required := Always, inherit := [OrganizationNameKey, CompanyKey])
    case _ => System()
  }

  function OrganizationContract(): EntityContract {
    EntityContract(OrganizationEntity, Table(1, OrganizationRow, OrganizationRule), [], false)
  }

  // ---- Deal ----

  function DealRow(i: nat): (Field, Column) {
    match i
    case 0 => (Name, DealName)
    case 1 => (Domain, DealDomain)
    case 2 => (Owner, DealOwner)
    case 3 => (OriginLead, OriginLeadColumn)
    case 4 => (CounterpartyContact, CounterpartyContactColumn)
    case 5 => (CounterpartyOrganization, CounterpartyOrganizationColumn)
    case 6 => (DealTypeField, DealTypeCode)
    case 7 => (RelationshipTypeField, RelationshipTypeColumn)
    case 8 => (BusinessDealTypeField, BusinessDealTypeColumn)
    case 9 => (RelationshipRoleField, RelationshipRoleColumn)
    case 10 => (EngagementDurationField, EngagementDurationColumn)
    case 11 => (CurrencyField, CurrencyColumn)
    case 12 => (CommercialStatusField, CommercialStatusColumn)
    case 13 => (EstimatedValueBasisField, EstimatedValueBasisColumn)
    case 14 => (EstimatedValueRangeField, EstimatedValueRangeColumn)
    case 15 => (EstimatedValueNotes, EstimatedValueNotesColumn)
    case 16 => (Stage, StageColumn)
    case 17 => (StartDate, StartDateColumn)
    case 18 => (Notes, NotesColumn)
    case 19 => (TotalCharged, TotalChargedColumn)
    case 20 => (TotalCollected, TotalCollectedColumn)
    case _ => (Outstanding, OutstandingColumn)
  }

  function DealRule(f: Field): Rule {
    match f
    case Name => Plain(TextInput(AnyText)).(required := Always, inherit := [DealNameKey, NameKey])
    case Domain => Plain(TextInput(AnyText)).(required := Always, inherit := [DomainKey])
    case Owner => LinkTo([OwnerKey, OwnerIdKey]).(required := Always)
    case OriginLead => LinkTo([LeadIdentityKey, OriginLeadIdKey])
    case CounterpartyContact => LinkTo([ContactIdKey, CounterpartyContactKey])
    case CounterpartyOrganization => LinkTo([OrganizationIdKey, CounterpartyOrganizationKey])
    case DealTypeField => OneFrom(DealTypes)
    case RelationshipTypeField => OneFrom(RelationshipTypes)
    case BusinessDealTypeField => OneFrom(BusinessDealTypes)
    case RelationshipRoleField => OneFrom(RelationshipRoles)
    case EngagementDurationField => OneFrom(EngagementDurations)
    case CurrencyField => OneFrom(Currencies)
    case CommercialStatusField => OneFrom(CommercialStatuses)
    case EstimatedValueBasisField => OneFrom(EstimatedValueBases)
    case EstimatedValueRangeField => OneFrom(EstimatedValueRanges)
    case EstimatedValueNotes => Plain(TextInput(AnyText))
    case Stage => OneFrom(Stages).(default := Word("הזדמנות"))
    case StartDate => Plain(DateInput)
    case Notes => Plain(TextInput(AnyText))
    case TotalCharged => System().(persisted := false)
    case TotalCollected => System().(persisted := false)
    case Outstanding => System().(persisted := false)
    case _ => System()
  }

  function DealContract(): EntityContract {
    EntityContract(DealEntity, Table(22, DealRow, DealRule), [[CounterpartyContact, CounterpartyOrganization]], false)
  }

  // ---- PaymentTerm ----

  function PaymentTermRow(i: nat): (Field, Column) {
    match i
    case 0 => (Deal, DealColumn)
    case 1 => (Name, NameColumn)
    case 2 => (DirectionField, DirectionColumn)
    case 3 => (CalculationType, CalculationTypeCode)
    case 4 => (FixedAmount, FixedAmountColumn)
    case 5 => (RatePct, RatePctColumn)
    case 6 => (CalculationBasis, CalculationBasisCode)
    case 7 => (TierConfiguration, TierConfigurationColumn)
    case 8 => (CustomCalculationRule, CustomCalculationRuleColumn)
    case 9 => (UnitRate, UnitRateColumn)
    case 10 => (MinimumAmount, MinimumAmountColumn)
    case 11 => (MaximumAmount, MaximumAmountColumn)
    case 12 => (Cadence, CadenceCode)
    case 13 => (InstallmentCount, InstallmentCountColumn)
    case 14 => (TriggerType, TriggerTypeCode)
    case 15 => (TriggerDate, TriggerDateColumn)
    case 16 => (TriggerDelayDays, TriggerDelayDaysColumn)
    case 17 => (TriggerEvent, TriggerEventColumn)
    case 18 => (DueRule, DueRuleColumn)
    case 19 => (SpecificDueDate, SpecificDueDateColumn)
    case 20 => (ScheduleAnchorDate, ScheduleAnchorDateColumn)
    case 21 => (NetDays, NetDaysColumn)
    case 22 => (GracePeriodDays, GracePeriodDaysColumn)
    case 23 => (CurrencyField, CurrencyColumn)
    case 24 => (StatusField, StatusColumn)
    case 25 => (NextDueDate, NextDueDateColumn)
    case 26 => (VatRuleField, VatRuleColumn)
    case 27 => (StartDate, StartDateColumn)
    case 28 => (EndDate, EndDateColumn)
    case _ => (Notes, NotesColumn)
  }

  function PaymentTermRule(f: Field): Rule {
    match f
    case Deal => LinkTo([DealIdentityKey, DealKey]).(required := Always)
    case Name => Plain(TextInput(AnyText)).(default := Word("Payment Term"))
    case DirectionField => OneFrom(Directions).(required := Always, inherit := [DirectionKey])
    case CalculationType => OneFrom(CalcTypes).(required := Always)
    case FixedAmount => When(Money(Positive), CalculationType, ["fixed"])
    case RatePct => When(Plain(Percent(Positive)), CalculationType, ["percentage"])
    case CalculationBasis =>
      When(OneFrom(CalcBases), CalculationType, ["percentage", "per_unit", "usage_based", "tiered", "custom"])
    case TierConfiguration => When(Plain(TextInput(AnyText)), CalculationType, ["tiered"])
    case CustomCalculationRule => When(Plain(TextInput(AnyText)), CalculationType, ["custom"])
    case UnitRate => When(Money(Positive), CalculationType, ["per_unit", "usage_based"])
    case MinimumAmount => Money(NonNegative)
    case MaximumAmount => Money(NonNegative)
    case Cadence => OneFrom(Cadences).(default := Word("once"))
    case InstallmentCount =>
      Plain(NumberInput(PositiveInteger)).(
        required := Conditional, when := [Condition(Cadence, ["installments"]), Condition(DueRule, ["installments"])],
        allConditions := false)
    case TriggerType => OneFrom(Triggers).(default := Word("immediate"))
    case TriggerDate => When(Plain(DateInput), TriggerType, ["specific_date"])
    case TriggerDelayDays => When(Plain(NumberInput(NonNegativeInteger)), TriggerType, ["after_period"])
    case TriggerEvent => When(Plain(TextInput(AnyText)), TriggerType, ["event_based"])
    case DueRule => OneFrom(DueRules).(default := Word("due_immediately"))
    case SpecificDueDate => When(Plain(DateInput), DueRule, ["specific_due_date"])
    case ScheduleAnchorDate => When(Plain(DateInput), DueRule, ["scheduled", "installments"])
    case NetDays => When(Plain(NumberInput(NonNegativeInteger)), DueRule, ["net_days"])
    case GracePeriodDays => Plain(NumberInput(NonNegativeInteger)).(default := Number(0.0))
    case CurrencyField => OneFrom(Currencies).(required := Always, inherit := [CurrencyKey])
    case StatusField => OneFrom(TermStatuses).(default := Word("draft"))
    case NextDueDate => System().(derived := true)
    case VatRuleField => OneFrom(VatRules).(default := Word("none"))
    case StartDate => Plain(DateInput)
    case EndDate => Plain(DateInput)
    case Notes => Plain(TextInput(AnyText))
    case _ => System()
  }

  function PaymentTermContract(): EntityContract {
    EntityContract(PaymentTermEntity, Table(30, PaymentTermRow, PaymentTermRule), [], false)
  }

  // ---- Charge ----

  function ChargeRow(i: nat): (Field, Column) {
    match i
    case 0 => (Reference, ChargeReferenceColumn)
    case 1 => (Deal, DealColumn)
    case 2 => (BillingTerm, BillingTermColumn)
    case 3 => (DirectionField, DirectionColumn)
    case 4 => (Amount, AmountColumn)
    case 5 => (CurrencyField, CurrencyCode)
    case 6 => (OriginalDueDate, OriginalDueDateColumn)
    case 7 => (CurrentExpectedDate, CurrentExpectedDateColumn)
    case 8 => (StatusField, StatusColumn)
    case 9 => (CollectionStateField, CollectionStateColumn)
    case 10 => (BaseAmount, BaseAmountColumn)
    case 11 => (RatePct, RatePctColumn)
    case 12 => (Quantity, QuantityColumn)
    case 13 => (UnitRate, UnitRateColumn)
    case 14 => (VatRuleField, VatRuleColumn)
    case 15 => (VatAmount, VatAmountColumn)
    case 16 => (TriggerEvidence, TriggerEvidenceColumn)
    case 17 => (OriginalTermsSnapshot, OriginalTermsSnapshotColumn)
    case 18 => (TotalPaid, TotalPaidColumn)
    case 19 => (RemainingBalance, RemainingBalanceColumn)
    case 20 => (PromisedPaymentDate, PromisedPaymentDateColumn)
    case 21 => (PromisedPaymentAmount, PromisedPaymentAmountColumn)
    case 22 => (DocumentRequirement, DocumentRequirementColumn)
    case 23 => (DocumentStatus, DocumentStatusColumn)
    case _ => (Notes, NotesColumn)
  }

  function ChargeRule(f: Field): Rule {
    match f
    case Reference => Plain(TextInput(AnyText))
    case Deal => LinkTo([DealIdentityKey, DealKey]).(required := Always)
    case BillingTerm => LinkTo([PaymentTermIdentityKey, BillingTermKey])
    case DirectionField => OneFrom(Directions).(required := Always, inherit := [DirectionKey])
    case Amount => Money(Positive).(required := Always)
    case CurrencyField => OneFrom(Currencies).(required := Always, inherit := [CurrencyKey])
    case OriginalDueDate => Plain(DateInput).(inherit := [OriginalDueDateKey, DueDateKey])
    case CurrentExpectedDate => Plain(DateInput)
    case StatusField => OneFrom(ChargeStatuses).(default := Word("draft"))
    case CollectionStateField => OneFrom(CollectionStates).(default := Word("not_due"))
    case BaseAmount => Money(NonNegative)
    case RatePct => Plain(Percent(AnyNumber))
    case Quantity => Plain(NumberInput(Positive))
    case UnitRate => Money(Positive)
    case VatRuleField => OneFrom(VatRules).(default := Word("none"))
    case VatAmount => Money(NonNegative)
    case TriggerEvidence => Plain(TextInput(AnyText)).(derived := true, manual := false)
    case OriginalTermsSnapshot => Plain(TextInput(AnyText)).(derived := true, manual := false)
    case TotalPaid => System()
    case RemainingBalance => System()
    case PromisedPaymentDate => Plain(DateInput)
    case PromisedPaymentAmount => Money(Positive)
    case DocumentRequirement => RequirementOfDocument()
    case DocumentStatus => StatusOfDocument()
    case Notes => Plain(TextInput(AnyText))
    case _ => System()
  }

  function ChargeContract(): EntityContract {
    EntityContract(ChargeEntity, Table(25, ChargeRow, ChargeRule), [], false)
  }

  // ---- ChargeFromTerm ----

  function ChargeFromTermRow(i: nat): (Field, Column) {
    match i
    case 0 => (Deal, DealIdKey)
    case 1 => (BillingTerm, PaymentTermIdKey)
    case 2 => (Lead, LeadIdKey)
    case 3 => (BasisValue, BasisValueKey)
    case _ => (TermCalcType, TermCalcTypeKey)
  }

  function ChargeFromTermRule(f: Field): Rule {
    match f
    case Deal => LinkTo([DealIdentityKey, DealKey]).(required := Always)
    case BillingTerm => LinkTo([PaymentTermIdentityKey, BillingTermKey]).(required := Always)
    case Lead => LinkTo([LeadIdentityKey, OriginLeadIdKey, LeadKey])
    case BasisValue =>
      When(Money(Positive), TermCalcType, ["percentage", "per_unit", "usage_based", "tiered", "custom"])
    case TermCalcType => Plain(TextInput(AnyText)).(manual := false, persisted := false)
    case _ => System()
  }

  function ChargeFromTermContract(): EntityContract {
    EntityContract(ChargeFromTermEntity, Table(5, ChargeFromTermRow, ChargeFromTermRule), [], false)
  }

  // ---- Payment ----

  function PaymentRow(i: nat): (Field, Column) {
    match i
    case 0 => (Charge, ChargeColumn)
    case 1 => (Amount, LowerAmount)
    case 2 => (PaidAt, PaidAtColumn)
    case 3 => (DirectionField, DirectionColumn)
    case 4 => (CurrencyField, CurrencyColumn)
    case 5 => (StatusField, LowerStatus)
    case 6 => (Reference, LowerReference)
    case 7 => (Method, MethodColumn)
    case 8 => (Deal, DealIdKey)
    case 9 => (PaymentTerm, PaymentTermColumn)
    case 10 => (CounterpartyContact, CounterpartyContactColumn)
    case 11 => (CounterpartyOrganization, CounterpartyOrganizationColumn)
    case 12 => (DocumentRequirement, DocumentRequirementColumn)
    case 13 => (DocumentStatus, DocumentStatusColumn)
    case _ => (Notes, NotesColumn)
  }

  function PaymentRule(f: Field): Rule {
    match f
    case Charge => LinkTo([ChargeIdKey, ChargeKey]).(required := Always)
    case Amount => Money(Positive).(required := Always)
    case PaidAt => Plain(DateInput).(required := Always)
    case DirectionField => OneFrom(Directions).(required := Always, inherit := [DirectionKey])
    case CurrencyField => OneFrom(Currencies).(required := Always, inherit := [CurrencyKey])
    case StatusField => OneFrom(PaymentStatuses).(default := Word("received"), manual := false)
    case Reference => Plain(TextInput(AnyText))
    case Method => Plain(TextInput(AnyText))
    case Deal => LinkTo([DealIdentityKey, DealKey]).(required := Always)
    case PaymentTerm => LinkTo([PaymentTermIdentityKey, BillingTermKey])
    case CounterpartyContact => LinkTo([CounterpartyContactKey, ContactIdKey])
    case CounterpartyOrganization => LinkTo([CounterpartyOrganizationKey, OrganizationIdKey])
    case DocumentRequirement => RequirementOfDocument()
    case DocumentStatus => StatusOfDocument()
    case Notes => Plain(TextInput(AnyText))
    case _ => System()
  }

  function PaymentContract(): EntityContract {
    EntityContract(PaymentEntity, Table(15, PaymentRow, PaymentRule), [], false)
  }

  function ContractOf(e: Entity): EntityContract {
    match e
    case ContactEntity => ContactContract()
    case OrganizationEntity => OrganizationContract()
    case DealEntity => DealContract()
    case PaymentTermEntity => PaymentTermContract()
    case ChargeEntity => ChargeContract()
    case ChargeFromTermEntity => ChargeFromTermContract()
    case PaymentEntity => PaymentContract()
  }
}
