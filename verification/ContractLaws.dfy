/** Every contract of a supported entity is well formed, so the laws of the question loop hold for each of them. */
module ContractLaws {
  import opened Prelude
  import opened CompletionEngine
  import opened CompletionAnswers
  import opened CompletionPayload
  import opened CommercialContracts

  lemma TableAt(n: nat, row: nat -> (Field, Column), rule: Field -> Rule, i: nat)
    requires i < n
    ensures |Table(n, row, rule)| == n
    ensures Table(n, row, rule)[i] == FieldContract(row(i).0, row(i).1, rule(row(i).0), None)
  {
  }

  /** Each field has its own place. */
  ghost predicate Placed(n: nat, row: nat -> (Field, Column), place: Field -> nat) {
    forall i :: 0 <= i < n ==> place(row(i).0) == i
  }

  /** A contract without follow-ups whose fields have each their own place. */
  lemma TableWellFormed(e: EntityContract, n: nat, row: nat -> (Field, Column), rule: Field -> Rule, place: Field -> nat)
    requires Placed(n, row, place) && e.fields == Table(n, row, rule)
    requires place(DocumentStatus) < n ==> !rule(DocumentStatus).manual
    requires forall g :: 0 <= g < |e.oneOf| ==> e.oneOf[g] != [] && AskableField(e, e.oneOf[g][0])
    ensures WellFormed(e)
  {
  }

  lemma TableOwnColumns(n: nat, row: nat -> (Field, Column), rule: Field -> Rule, columnPlace: Column -> nat)
    requires forall i :: 0 <= i < n ==> columnPlace(row(i).1) == i
    ensures OwnColumns(Table(n, row, rule))
  {
  }

  // ---- Contact ----

  function ContactPlace(f: Field): nat {
    match f
    case Name => 0
    case Phone => 1
    case Email => 2
    case Company => 3
    case RoleCategory => 4
    case _ => 5
  }

  lemma ContactPlacedAt(i: nat)
    requires i < 5
    ensures ContactPlace(ContactRow(i).0) == i
  {
  }

  lemma ContactPlaced()
    ensures Placed(5, ContactRow, ContactPlace)
  {
    forall i | 0 <= i < 5 ensures ContactPlace(ContactRow(i).0) == i { ContactPlacedAt(i); }
  }

  lemma ContactWellFormed()
    ensures WellFormed(ContactContract())
  {
    ContactPlaced();
    TableWellFormed(ContactContract(), 5, ContactRow, ContactRule, ContactPlace);
  }

  // ---- Organization ----

  function OrganizationPlace(f: Field): nat {
    match f
    case OrganizationName => 0
    case _ => 1
  }

  lemma OrganizationPlacedAt(i: nat)
    requires i < 1
    ensures OrganizationPlace(OrganizationRow(i).0) == i
  {
  }

  lemma OrganizationPlaced()
    ensures Placed(1, OrganizationRow, OrganizationPlace)
  {
    forall i | 0 <= i < 1 ensures OrganizationPlace(OrganizationRow(i).0) == i { OrganizationPlacedAt(i); }
  }

  lemma OrganizationWellFormed()
    ensures WellFormed(OrganizationContract())
  {
    OrganizationPlaced();
    TableWellFormed(OrganizationContract(), 1, OrganizationRow, OrganizationRule, OrganizationPlace);
  }

  // ---- Deal ----

  function DealPlace(f: Field): nat {
    match f
    case Name => 0
    case Domain => 1
    case Owner => 2
    case OriginLead => 3
    case CounterpartyContact => 4
    case CounterpartyOrganization => 5
    case DealTypeField => 6
    case RelationshipTypeField => 7
    case BusinessDealTypeField => 8
    case RelationshipRoleField => 9
    case EngagementDurationField => 10
    case CurrencyField => 11
    case CommercialStatusField => 12
    case EstimatedValueBasisField => 13
    case EstimatedValueRangeField => 14
    case EstimatedValueNotes => 15
    case Stage => 16
    case StartDate => 17
    case Notes => 18
    case TotalCharged => 19
    case TotalCollected => 20
    case Outstanding => 21
    case _ => 22
  }

  lemma DealPlacedAt(i: nat)
    requires i < 22
    ensures DealPlace(DealRow(i).0) == i
  {
  }

  lemma DealPlaced()
    ensures Placed(22, DealRow, DealPlace)
  {
    forall i | 0 <= i < 22 ensures DealPlace(DealRow(i).0) == i { DealPlacedAt(i); }
  }

  /** The places of the two counterparty links in a Deal. */
  lemma DealCounterpartyAt(f: Field) returns (i: nat)
    requires f == CounterpartyContact || f == CounterpartyOrganization
    ensures i < |DealContract().fields| && DealContract().fields[i].name == f
    ensures Askable(DealContract().fields[i]) && DealContract().fields[i].rule.input == Link
  {
    i := DealPlace(f);
    TableAt(22, DealRow, DealRule, i);
  }

  lemma DealWellFormed()
    ensures WellFormed(DealContract())
  {
    DealPlaced();
    var i := DealCounterpartyAt(CounterpartyContact);
    assert DealContract().oneOf[0] == [CounterpartyContact, CounterpartyOrganization];
    TableWellFormed(DealContract(), 22, DealRow, DealRule, DealPlace);
  }

  // ---- PaymentTerm ----

  function PaymentTermPlace(f: Field): nat {
    match f
    case Deal => 0
    case Name => 1
    case DirectionField => 2
    case CalculationType => 3
    case FixedAmount => 4
    case RatePct => 5
    case CalculationBasis => 6
    case TierConfiguration => 7
    case CustomCalculationRule => 8
    case UnitRate => 9
    case MinimumAmount => 10
    case MaximumAmount => 11
    case Cadence => 12
    case InstallmentCount => 13
    case TriggerType => 14
    case TriggerDate => 15
    case TriggerDelayDays => 16
    case TriggerEvent => 17
    case DueRule => 18
    case SpecificDueDate => 19
    case ScheduleAnchorDate => 20
    case NetDays => 21
    case GracePeriodDays => 22
    case CurrencyField => 23
    case StatusField => 24
    case NextDueDate => 25
    case VatRuleField => 26
    case StartDate => 27
    case EndDate => 28
    case Notes => 29
    case _ => 30
  }

  lemma PaymentTermPlacedAt(i: nat)
    requires i < 30
    ensures PaymentTermPlace(PaymentTermRow(i).0) == i
  {
  }

  lemma PaymentTermPlaced()
    ensures Placed(30, PaymentTermRow, PaymentTermPlace)
  {
    forall i | 0 <= i < 30 ensures PaymentTermPlace(PaymentTermRow(i).0) == i { PaymentTermPlacedAt(i); }
  }

  lemma PaymentTermWellFormed()
    ensures WellFormed(PaymentTermContract())
  {
    PaymentTermPlaced();
    TableWellFormed(PaymentTermContract(), 30, PaymentTermRow, PaymentTermRule, PaymentTermPlace);
  }

  function PaymentTermColumnPlace(c: Column): nat {
    match c
    case DealColumn => 0
    case NameColumn => 1
    case DirectionColumn => 2
    case CalculationTypeCode => 3
    case FixedAmountColumn => 4
    case RatePctColumn => 5
    case CalculationBasisCode => 6
    case TierConfigurationColumn => 7
    case CustomCalculationRuleColumn => 8
    case UnitRateColumn => 9
    case MinimumAmountColumn => 10
    case MaximumAmountColumn => 11
    case CadenceCode => 12
    case InstallmentCountColumn => 13
    case TriggerTypeCode => 14
    case TriggerDateColumn => 15
    case TriggerDelayDaysColumn => 16
    case TriggerEventColumn => 17
    case DueRuleColumn => 18
    case SpecificDueDateColumn => 19
    case ScheduleAnchorDateColumn => 20
    case NetDaysColumn => 21
    case GracePeriodDaysColumn => 22
    case CurrencyColumn => 23
    case StatusColumn => 24
    case NextDueDateColumn => 25
    case VatRuleColumn => 26
    case StartDateColumn => 27
    case EndDateColumn => 28
    case NotesColumn => 29
    case _ => 30
  }

  lemma PaymentTermColumnPlacedAt(i: nat)
    requires i < 30
    ensures PaymentTermColumnPlace(PaymentTermRow(i).1) == i
  {
  }

  lemma PaymentTermOwnColumns()
    ensures OwnColumns(PaymentTermContract().fields)
  {
    forall i | 0 <= i < 30 ensures PaymentTermColumnPlace(PaymentTermRow(i).1) == i { PaymentTermColumnPlacedAt(i); }
    TableOwnColumns(30, PaymentTermRow, PaymentTermRule, PaymentTermColumnPlace);
  }

  function PaymentTermColumnOf(f: Field): Column { PaymentTermRow(PaymentTermPlace(f)).1 }

  lemma PaymentTermHasField(f: Field)
    requires PaymentTermPlace(f) < 30
    ensures PaymentTermRow(PaymentTermPlace(f)).0 == f
  {
  }

  /** The entry of a field in the contract. */
  lemma PaymentTermEntry(f: Field)
    requires PaymentTermPlace(f) < 30
    ensures |PaymentTermContract().fields| == 30
    ensures PaymentTermContract().fields[PaymentTermPlace(f)] == FieldContract(f, PaymentTermColumnOf(f), PaymentTermRule(f), None)
  {
    PaymentTermHasField(f);
    TableAt(30, PaymentTermRow, PaymentTermRule, PaymentTermPlace(f));
  }

  // ---- Charge ----

  function ChargePlace(f: Field): nat {
    match f
    case Reference => 0
    case Deal => 1
    case BillingTerm => 2
    case DirectionField => 3
    case Amount => 4
    case CurrencyField => 5
    case OriginalDueDate => 6
    case CurrentExpectedDate => 7
    case StatusField => 8
    case CollectionStateField => 9
    case BaseAmount => 10
    case RatePct => 11
    case Quantity => 12
    case UnitRate => 13
    case VatRuleField => 14
    case VatAmount => 15
    case TriggerEvidence => 16
    case OriginalTermsSnapshot => 17
    case TotalPaid => 18
    case RemainingBalance => 19
    case PromisedPaymentDate => 20
    case PromisedPaymentAmount => 21
    case DocumentRequirement => 22
    case DocumentStatus => 23
    case Notes => 24
    case _ => 25
  }

  lemma FirstChargePlacedAt(i: nat)
    requires i < 13
    ensures ChargePlace(ChargeRow(i).0) == i
  {
  }

  lemma LastChargePlacedAt(i: nat)
    requires 13 <= i < 25
    ensures ChargePlace(ChargeRow(i).0) == i
  {
  }

  lemma ChargePlacedAt(i: nat)
    requires i < 25
    ensures ChargePlace(ChargeRow(i).0) == i
  {
    if i < 13 { FirstChargePlacedAt(i); } else { LastChargePlacedAt(i); }
  }

  lemma ChargePlaced()
    ensures Placed(25, ChargeRow, ChargePlace)
  {
    forall i | 0 <= i < 25 ensures ChargePlace(ChargeRow(i).0) == i { ChargePlacedAt(i); }
  }

  lemma ChargeStatusOfDocument()
    ensures ChargeRule(DocumentStatus) == StatusOfDocument() && !StatusOfDocument().manual
  {
  }

  lemma ChargeWellFormed()
    ensures WellFormed(ChargeContract())
  {
    ChargePlaced();
    ChargeStatusOfDocument();
    TableWellFormed(ChargeContract(), 25, ChargeRow, ChargeRule, ChargePlace);
  }

  function ChargeColumnPlace(c: Column): nat {
    match c
    case ChargeReferenceColumn => 0
    case DealColumn => 1
    case BillingTermColumn => 2
    case DirectionColumn => 3
    case AmountColumn => 4
    case CurrencyCode => 5
    case OriginalDueDateColumn => 6
    case CurrentExpectedDateColumn => 7
    case StatusColumn => 8
    case CollectionStateColumn => 9
    case BaseAmountColumn => 10
    case RatePctColumn => 11
    case QuantityColumn => 12
    case UnitRateColumn => 13
    case VatRuleColumn => 14
    case VatAmountColumn => 15
    case TriggerEvidenceColumn => 16
    case OriginalTermsSnapshotColumn => 17
    case TotalPaidColumn => 18
    case RemainingBalanceColumn => 19
    case PromisedPaymentDateColumn => 20
    case PromisedPaymentAmountColumn => 21
    case DocumentRequirementColumn => 22
    case DocumentStatusColumn => 23
    case NotesColumn => 24
    case _ => 25
  }

  lemma FirstChargeColumnPlacedAt(i: nat)
    requires i < 13
    ensures ChargeColumnPlace(ChargeRow(i).1) == i
  {
  }

  lemma LastChargeColumnPlacedAt(i: nat)
    requires 13 <= i < 25
    ensures ChargeColumnPlace(ChargeRow(i).1) == i
  {
  }

  lemma ChargeColumnPlacedAt(i: nat)
    requires i < 25
    ensures ChargeColumnPlace(ChargeRow(i).1) == i
  {
    if i < 13 { FirstChargeColumnPlacedAt(i); } else { LastChargeColumnPlacedAt(i); }
  }

  lemma ChargeOwnColumns()
    ensures OwnColumns(ChargeContract().fields)
  {
    forall i | 0 <= i < 25 ensures ChargeColumnPlace(ChargeRow(i).1) == i { ChargeColumnPlacedAt(i); }
    TableOwnColumns(25, ChargeRow, ChargeRule, ChargeColumnPlace);
  }

  function ChargeColumnOf(f: Field): Column { ChargeRow(ChargePlace(f)).1 }

  lemma ChargeHasField(f: Field)
    requires ChargePlace(f) < 25
    ensures ChargeRow(ChargePlace(f)).0 == f
  {
  }

  /** The entry of a field in the contract. */
  lemma ChargeEntry(f: Field)
    requires ChargePlace(f) < 25
    ensures |ChargeContract().fields| == 25
    ensures ChargeContract().fields[ChargePlace(f)] == FieldContract(f, ChargeColumnOf(f), ChargeRule(f), None)
  {
    ChargeHasField(f);
    TableAt(25, ChargeRow, ChargeRule, ChargePlace(f));
  }

  // ---- ChargeFromTerm ----

  function ChargeFromTermPlace(f: Field): nat {
    match f
    case Deal => 0
    case BillingTerm => 1
    case Lead => 2
    case BasisValue => 3
    case TermCalcType => 4
    case _ => 5
  }

  lemma ChargeFromTermPlacedAt(i: nat)
    requires i < 5
    ensures ChargeFromTermPlace(ChargeFromTermRow(i).0) == i
  {
  }

  lemma ChargeFromTermPlaced()
    ensures Placed(5, ChargeFromTermRow, ChargeFromTermPlace)
  {
    forall i | 0 <= i < 5 ensures ChargeFromTermPlace(ChargeFromTermRow(i).0) == i { ChargeFromTermPlacedAt(i); }
  }

  lemma ChargeFromTermWellFormed()
    ensures WellFormed(ChargeFromTermContract())
  {
    ChargeFromTermPlaced();
    TableWellFormed(ChargeFromTermContract(), 5, ChargeFromTermRow, ChargeFromTermRule, ChargeFromTermPlace);
  }

  // ---- Payment ----

  function PaymentPlace(f: Field): nat {
    match f
    case Charge => 0
    case Amount => 1
    case PaidAt => 2
    case DirectionField => 3
    case CurrencyField => 4
    case StatusField => 5
    case Reference => 6
    case Method => 7
    case Deal => 8
    case PaymentTerm => 9
    case CounterpartyContact => 10
    case CounterpartyOrganization => 11
    case DocumentRequirement => 12
    case DocumentStatus => 13
    case Notes => 14
    case _ => 15
  }

  lemma PaymentPlacedAt(i: nat)
    requires i < 15
    ensures PaymentPlace(PaymentRow(i).0) == i
  {
  }

  lemma PaymentPlaced()
    ensures Placed(15, PaymentRow, PaymentPlace)
  {
    forall i | 0 <= i < 15 ensures PaymentPlace(PaymentRow(i).0) == i { PaymentPlacedAt(i); }
  }

  lemma PaymentStatusOfDocument()
    ensures PaymentRule(DocumentStatus) == StatusOfDocument() && !StatusOfDocument().manual
  {
  }

  lemma PaymentWellFormed()
    ensures WellFormed(PaymentContract())
  {
    PaymentPlaced();
    PaymentStatusOfDocument();
    TableWellFormed(PaymentContract(), 15, PaymentRow, PaymentRule, PaymentPlace);
  }

  function PaymentColumnPlace(c: Column): nat {
    match c
    case ChargeColumn => 0
    case LowerAmount => 1
    case PaidAtColumn => 2
    case DirectionColumn => 3
    case CurrencyColumn => 4
    case LowerStatus => 5
    case LowerReference => 6
    case MethodColumn => 7
    case DealIdKey => 8
    case PaymentTermColumn => 9
    case CounterpartyContactColumn => 10
    case CounterpartyOrganizationColumn => 11
    case DocumentRequirementColumn => 12
    case DocumentStatusColumn => 13
    case NotesColumn => 14
    case _ => 15
  }

  lemma FirstPaymentColumnPlacedAt(i: nat)
    requires i < 8
    ensures PaymentColumnPlace(PaymentRow(i).1) == i
  {
  }

  lemma LastPaymentColumnPlacedAt(i: nat)
    requires 8 <= i < 15
    ensures PaymentColumnPlace(PaymentRow(i).1) == i
  {
  }

  lemma PaymentColumnPlacedAt(i: nat)
    requires i < 15
    ensures PaymentColumnPlace(PaymentRow(i).1) == i
  {
    if i < 8 { FirstPaymentColumnPlacedAt(i); } else { LastPaymentColumnPlacedAt(i); }
  }

  lemma PaymentOwnColumns()
    ensures OwnColumns(PaymentContract().fields)
  {
    forall i | 0 <= i < 15 ensures PaymentColumnPlace(PaymentRow(i).1) == i { PaymentColumnPlacedAt(i); }
    TableOwnColumns(15, PaymentRow, PaymentRule, PaymentColumnPlace);
  }

  function PaymentColumnOf(f: Field): Column { PaymentRow(PaymentPlace(f)).1 }

  lemma PaymentHasField(f: Field)
    requires PaymentPlace(f) < 15
    ensures PaymentRow(PaymentPlace(f)).0 == f
  {
  }

  /** The entry of a field in the contract. */
  lemma PaymentEntry(f: Field)
    requires PaymentPlace(f) < 15
    ensures |PaymentContract().fields| == 15
    ensures PaymentContract().fields[PaymentPlace(f)] == FieldContract(f, PaymentColumnOf(f), PaymentRule(f), None)
  {
    PaymentHasField(f);
    TableAt(15, PaymentRow, PaymentRule, PaymentPlace(f));
  }

  /** The laws of the question loop hold for every supported entity. */
  lemma EveryContractWellFormed(e: Entity, c: EntityContract)
    requires c == ContractOf(e)
    ensures WellFormed(c)
  {
    match e {
      case ContactEntity => ContactWellFormed();
      case OrganizationEntity => OrganizationWellFormed();
      case DealEntity => DealWellFormed();
      case PaymentTermEntity => PaymentTermWellFormed();
      case ChargeEntity => ChargeWellFormed();
      case ChargeFromTermEntity => ChargeFromTermWellFormed();
      case PaymentEntity => PaymentWellFormed();
    }
  }
}
