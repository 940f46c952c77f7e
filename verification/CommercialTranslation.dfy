/** From a completed payload to the arguments of the writer that stores it. */
module CommercialTranslation {
  import opened Prelude
  import opened Texts
  import opened Vocabulary
  import opened CompletionEngine
  import opened CompletionPayload
  import opened CompletionAnswers
  import opened CommercialContracts
  import opened CommercialChecks

  /** A link as one id: the only item of a list, or the text itself, stripped; other values stand for no id. */
  function LinkId(v: Value): Option<string> {
    match v
    case Items(items) => if |items| == 1 then Some(Strip(items[0])) else None
    case Text(s, _) => Some(Strip(s))
    case _ => Some("")
  }

  /** A required column that is not there, or a link that is not one id, blocks. */
  datatype Translated<T> = Inputs(inputs: T) | Blocked

  predicate AllThere(p: Payload, cols: seq<Column>) { forall i :: 0 <= i < |cols| ==> cols[i] in p }

  predicate LinksGood(p: Payload, cols: seq<Column>) {
    forall i :: 0 <= i < |cols| && cols[i] in p ==> LinkId(p[cols[i]]).Some?
  }

  function LinkOr(p: Payload, col: Column): string {
    if col in p && LinkId(p[col]).Some? then LinkId(p[col]).value else ""
  }

  function ChargeKeys(): seq<Column> {
    [DealColumn, DirectionColumn, AmountColumn, CurrencyCode, StatusColumn, CollectionStateColumn, VatRuleColumn,
     DocumentRequirementColumn, DocumentStatusColumn]
  }

  /** The arguments for a new Charge.  Its reference is looked for under "Reference", the column of another table. */
  function ChargeInputsOf(p: Payload): ChargeInputs {
    ChargeInputs(
      LinkOr(p, DealColumn), At(p, DirectionColumn), At(p, AmountColumn), At(p, CurrencyCode), At(p, StatusColumn),
      At(p, CollectionStateColumn), At(p, VatRuleColumn), At(p, DocumentRequirementColumn), At(p, DocumentStatusColumn),
      LinkOr(p, BillingTermColumn), "", At(p, ReferenceColumn), At(p, OriginalDueDateColumn), At(p, CurrentExpectedDateColumn),
      At(p, BaseAmountColumn), At(p, RatePctColumn), At(p, QuantityColumn), At(p, UnitRateColumn), At(p, VatAmountColumn),
      At(p, PromisedPaymentDateColumn), At(p, PromisedPaymentAmountColumn), At(p, NotesColumn))
  }

  function Translate<T>(p: Payload, keys: seq<Column>, links: seq<Column>, inputs: Payload -> T): Translated<T> {
    if AllThere(p, keys) && LinksGood(p, links) then Inputs(inputs(p)) else Blocked
  }

  function TranslateCharge(p: Payload): Translated<ChargeInputs> {
    Translate(p, ChargeKeys(), [DealColumn, BillingTermColumn], ChargeInputsOf)
  }

  function PaymentKeys(): seq<Column> {
    [ChargeColumn, DealIdKey, DirectionColumn, LowerAmount, CurrencyColumn, PaidAtColumn, LowerStatus,
     DocumentRequirementColumn, DocumentStatusColumn]
  }

  function PaymentLinks(): seq<Column> {
    [ChargeColumn, DealIdKey, PaymentTermColumn, CounterpartyContactColumn, CounterpartyOrganizationColumn]
  }

  function PaymentInputsOf(p: Payload): PaymentInputs {
    PaymentInputs(
      LinkOr(p, ChargeColumn), LinkOr(p, DealIdKey), At(p, DirectionColumn), At(p, LowerAmount), At(p, CurrencyColumn),
      At(p, PaidAtColumn), At(p, LowerStatus), At(p, DocumentRequirementColumn), At(p, DocumentStatusColumn),
      LinkOr(p, PaymentTermColumn), At(p, LowerReference), At(p, MethodColumn), LinkOr(p, CounterpartyContactColumn),
      LinkOr(p, CounterpartyOrganizationColumn), At(p, NotesColumn))
  }

  function TranslatePayment(p: Payload): Translated<PaymentInputs> {
    Translate(p, PaymentKeys(), PaymentLinks(), PaymentInputsOf)
  }

  function TermKeys(): seq<Column> { [DealColumn, CalculationTypeCode, DirectionColumn, CurrencyColumn] }

  function Or(v: Value, default: Value): Value { if v == Nothing then default else v }

  /** The arguments for a new Payment Term, with the writer's own defaults where the payload has none. */
  function TermInputsOf(p: Payload): TermInputs {
    TermInputs(
      LinkOr(p, DealColumn), Or(At(p, NameColumn), Word("Payment Term")), At(p, CalculationTypeCode), At(p, DirectionColumn),
      At(p, CurrencyColumn), At(p, FixedAmountColumn), At(p, RatePctColumn), At(p, CalculationBasisCode),
      Or(At(p, TriggerTypeCode), Word("immediate")), At(p, TriggerDateColumn), At(p, TriggerDelayDaysColumn),
      Or(At(p, CadenceCode), Word("once")), Or(At(p, VatRuleColumn), Word("none")), At(p, StartDateColumn), At(p, EndDateColumn),
      At(p, NotesColumn))
  }

  function TranslateTerm(p: Payload): Translated<TermInputs> { Translate(p, TermKeys(), [DealColumn], TermInputsOf) }

  // ---- values that answers left ----

  /** A link an answer left is its own id. */
  lemma SettledLink(v: Value)
    requires Settled(Link, v)
    ensures LinkId(v) == Some(v.s)
  {
    StripFixesExactlyStripped(v.s);
    assert v.s[0] == v.s[..3][0];
  }

  lemma SameLink(p: Payload, q: Payload, col: Column)
    requires col in p ==> Settled(Link, p[col])
    requires col in q ==> Settled(Link, q[col])
    requires LinkOr(p, col) == LinkOr(q, col)
    ensures At(p, col) == At(q, col)
  {
    if col in p { SettledLink(p[col]); }
    if col in q { SettledLink(q[col]); }
  }

  /** The document status that is derived agrees with its requirement. */
  lemma DerivedPairAgrees(values: Values)
    requires Chosen(Get(values, DocumentRequirement), DocumentRequirements)
    ensures DocumentFault(Get(values, DocumentRequirement), Derive(DocumentStatus, values)) == None
  {
    StatusesAreOffered();
    assert "not_required"[0] != "required"[0];
  }

  // ---- the document columns, which Charges and Payments share ----

  /** The requirement stands at j and the status derived from it at i. */
  predicate HasRequirement(e: EntityContract, j: nat) {
    && j < |e.fields|
    && e.fields[j] == FieldContract(DocumentRequirement, DocumentRequirementColumn, RequirementOfDocument(), None)
  }

  predicate HasDocuments(e: EntityContract, j: nat, i: nat) {
    && HasRequirement(e, j) && j < i < |e.fields|
    && e.fields[i] == FieldContract(DocumentStatus, DocumentStatusColumn, StatusOfDocument(), None)
  }

  lemma RequirementColumn(w: Writer, j: nat)
    requires AnsweredAll(w) && HasRequirement(w.contract, j)
    ensures var p := PayloadFor(w);
      && DocumentRequirementColumn in p && Chosen(p[DocumentRequirementColumn], DocumentRequirements)
      && p[DocumentRequirementColumn] == Get(Resolved(w), DocumentRequirement)
  {
    ColumnFromAnswers(w, j);
    RequirementIsChosen(At(PayloadFor(w), DocumentRequirementColumn));
  }

  lemma RequirementIsChosen(v: Value)
    requires Settled(RequirementOfDocument().input, v) || v == RequirementOfDocument().default
    ensures Chosen(v, DocumentRequirements)
  {
    NoneIsOffered();
  }

  /** An entity completed by answers hands on a document pair that agrees. */
  lemma DocumentColumnsAgree(w: Writer, j: nat, i: nat)
    requires AnsweredAll(w) && HasDocuments(w.contract, j, i)
    ensures var p := PayloadFor(w);
      && DocumentRequirementColumn in p && DocumentStatusColumn in p
      && DocumentFault(p[DocumentRequirementColumn], p[DocumentStatusColumn]) == None
  {
    RequirementColumn(w, j);
    DerivedIsPresent(Resolved(w));
    DocumentStatusValue(w, j, i);
    DerivedPairAgrees(Resolved(w));
  }

  lemma DerivedIsPresent(values: Values)
    requires Chosen(Get(values, DocumentRequirement), DocumentRequirements)
    ensures Present(Derive(DocumentStatus, values))
  {
  }
}
