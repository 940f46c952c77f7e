/** A Payment completed by answers is one its writer accepts, and nothing of it is lost on the way. */
module PaymentAnswers {
  import opened Prelude
  import opened Texts
  import opened DateAnswers
  import opened Vocabulary
  import opened CompletionEngine
  import opened CompletionAnswers
  import opened CompletionPayload
  import opened CommercialContracts
  import opened ContractLaws
  import opened CommercialChecks
  import opened CommercialTranslation

  ghost predicate AnsweredPayment(w: Writer) { w.contract == PaymentContract() && FromAnswers(w) && Complete(w) }

  lemma PaymentIsAnswered(w: Writer)
    requires AnsweredPayment(w)
    ensures AnsweredAll(w)
  {
    PaymentWellFormed();
    PaymentOwnColumns();
  }

  // ---- the columns of a Payment, one by one ----

  /** What the payload holds in the column of a field that can be asked for. */
  lemma PaymentFieldColumn(w: Writer, f: Field, rule: Rule)
    requires AnsweredPayment(w) && PaymentPlace(f) < 15 && rule == PaymentRule(f)
    requires rule.manual && rule.input != Computed && rule.persisted
    ensures var v := At(PayloadFor(w), PaymentColumnOf(f));
      && (PaymentColumnOf(f) in PayloadFor(w) <==> v != Nothing)
      && (v == Nothing || Settled(rule.input, v) || (v == rule.default && Present(v)))
      && (rule.required == Always || Present(rule.default) ==> v != Nothing)
      && v == Get(Resolved(w), f)
  {
    PaymentIsAnswered(w);
    PaymentEntry(f);
    ColumnFromAnswers(w, PaymentPlace(f));
  }

  lemma PaymentDirection(w: Writer)
    requires AnsweredPayment(w)
    ensures DirectionColumn in PayloadFor(w) && Chosen(PayloadFor(w)[DirectionColumn], Directions)
  {
    PaymentFieldColumn(w, DirectionField, PaymentRule(DirectionField));
  }

  lemma PaymentCurrency(w: Writer)
    requires AnsweredPayment(w)
    ensures CurrencyColumn in PayloadFor(w) && Chosen(PayloadFor(w)[CurrencyColumn], Currencies)
  {
    PaymentFieldColumn(w, CurrencyField, PaymentRule(CurrencyField));
  }

  lemma PaymentAmount(w: Writer)
    requires AnsweredPayment(w)
    ensures LowerAmount in PayloadFor(w) && ValidNumber(PayloadFor(w)[LowerAmount], true)
  {
    PaymentFieldColumn(w, Amount, PaymentRule(Amount));
  }

  lemma PaymentDate(w: Writer)
    requires AnsweredPayment(w)
    ensures var p := PayloadFor(w); PaidAtColumn in p && p[PaidAtColumn].Text? && StrictIsoDate(p[PaidAtColumn].s)
  {
    PaymentFieldColumn(w, PaidAt, PaymentRule(PaidAt));
  }

  lemma PaymentStatusRule()
    ensures var rule := PaymentRule(StatusField);
      rule.default == Word("received") && !rule.manual && rule.persisted && rule.input == Select(PaymentStatuses)
  {
  }

  /** The status is the one status a Payment can have. */
  lemma PaymentStatusIsReceived(w: Writer)
    requires AnsweredPayment(w)
    ensures LowerStatus in PayloadFor(w) && PayloadFor(w)[LowerStatus] == Word("received")
  {
    UnaskedPaymentStatus(w, PaymentRule(StatusField));
    PaymentStatusRule();
  }

  lemma UnaskedPaymentStatus(w: Writer, rule: Rule)
    requires AnsweredPayment(w) && rule == PaymentRule(StatusField)
    requires !rule.manual && rule.persisted && rule.input != Computed && Present(rule.default)
    ensures LowerStatus in PayloadFor(w) && PayloadFor(w)[LowerStatus] == rule.default
  {
    PaymentIsAnswered(w);
    PaymentEntry(StatusField);
    UnaskedColumn(w, PaymentPlace(StatusField));
  }

  lemma PaymentHasDocuments()
    ensures HasDocuments(PaymentContract(), PaymentPlace(DocumentRequirement), PaymentPlace(DocumentStatus))
  {
    PaymentEntry(DocumentRequirement);
    PaymentEntry(DocumentStatus);
    PaymentStatusOfDocument();
  }

  lemma PaymentDocuments(w: Writer)
    requires AnsweredPayment(w)
    ensures var p := PayloadFor(w);
      && DocumentRequirementColumn in p && DocumentStatusColumn in p
      && DocumentFault(p[DocumentRequirementColumn], p[DocumentStatusColumn]) == None
  {
    PaymentIsAnswered(w);
    PaymentHasDocuments();
    DocumentColumnsAgree(w, PaymentPlace(DocumentRequirement), PaymentPlace(DocumentStatus));
  }

  /** A column with one link in it, or without one. */
  predicate LinkColumn(p: Payload, c: Column) { c in p ==> Settled(Link, p[c]) }

  lemma PaymentChargeLink(w: Writer)
    requires AnsweredPayment(w)
    ensures LinkColumn(PayloadFor(w), ChargeColumn) && At(PayloadFor(w), ChargeColumn) == Get(Resolved(w), Charge)
    ensures ChargeColumn in PayloadFor(w)
  {
    PaymentFieldColumn(w, Charge, PaymentRule(Charge));
  }

  lemma PaymentDealLink(w: Writer)
    requires AnsweredPayment(w)
    ensures LinkColumn(PayloadFor(w), DealIdKey) && At(PayloadFor(w), DealIdKey) == Get(Resolved(w), Deal)
    ensures DealIdKey in PayloadFor(w)
  {
    PaymentFieldColumn(w, Deal, PaymentRule(Deal));
  }

  lemma PaymentPaymentTermLink(w: Writer)
    requires AnsweredPayment(w)
    ensures LinkColumn(PayloadFor(w), PaymentTermColumn) && At(PayloadFor(w), PaymentTermColumn) == Get(Resolved(w), PaymentTerm)
    ensures PaymentTermColumn in PayloadFor(w) <==> Get(Resolved(w), PaymentTerm) != Nothing
  {
    PaymentFieldColumn(w, PaymentTerm, PaymentRule(PaymentTerm));
  }

  lemma PaymentCounterpartyContactLink(w: Writer)
    requires AnsweredPayment(w)
    ensures LinkColumn(PayloadFor(w), CounterpartyContactColumn)
    ensures At(PayloadFor(w), CounterpartyContactColumn) == Get(Resolved(w), CounterpartyContact)
    ensures CounterpartyContactColumn in PayloadFor(w) <==> Get(Resolved(w), CounterpartyContact) != Nothing
  {
    PaymentFieldColumn(w, CounterpartyContact, PaymentRule(CounterpartyContact));
  }

  lemma PaymentCounterpartyOrganizationLink(w: Writer)
    requires AnsweredPayment(w)
    ensures LinkColumn(PayloadFor(w), CounterpartyOrganizationColumn)
    ensures At(PayloadFor(w), CounterpartyOrganizationColumn) == Get(Resolved(w), CounterpartyOrganization)
    ensures CounterpartyOrganizationColumn in PayloadFor(w) <==> Get(Resolved(w), CounterpartyOrganization) != Nothing
  {
    PaymentFieldColumn(w, CounterpartyOrganization, PaymentRule(CounterpartyOrganization));
  }

  // ---- the whole payload ----

  predicate GoodPaymentLinks(p: Payload) {
    && ChargeColumn in p && LinkColumn(p, ChargeColumn) && DealIdKey in p && LinkColumn(p, DealIdKey)
    && LinkColumn(p, PaymentTermColumn) && LinkColumn(p, CounterpartyContactColumn) && LinkColumn(p, CounterpartyOrganizationColumn)
  }

  predicate GoodPaymentValues(p: Payload) {
    && DirectionColumn in p && Chosen(p[DirectionColumn], Directions)
    && CurrencyColumn in p && Chosen(p[CurrencyColumn], Currencies)
    && LowerAmount in p && ValidNumber(p[LowerAmount], true)
    && PaidAtColumn in p && p[PaidAtColumn].Text? && StrictIsoDate(p[PaidAtColumn].s)
    && LowerStatus in p && p[LowerStatus] == Word("received")
    && DocumentRequirementColumn in p && DocumentStatusColumn in p
    && DocumentFault(p[DocumentRequirementColumn], p[DocumentStatusColumn]) == None
  }

  lemma PaymentLinksGood(w: Writer)
    requires AnsweredPayment(w)
    ensures GoodPaymentLinks(PayloadFor(w))
  {
    PaymentChargeLink(w);
    PaymentDealLink(w);
    PaymentPaymentTermLink(w);
    PaymentCounterpartyContactLink(w);
    PaymentCounterpartyOrganizationLink(w);
  }

  lemma PaymentValuesGood(w: Writer)
    requires AnsweredPayment(w)
    ensures GoodPaymentValues(PayloadFor(w))
  {
    PaymentDirection(w);
    PaymentCurrency(w);
    PaymentAmount(w);
    PaymentDate(w);
    PaymentStatusIsReceived(w);
    PaymentDocuments(w);
  }

  lemma LinkReachesWriter(p: Payload, c: Column)
    requires LinkColumn(p, c)
    ensures LinkOr(p, c) == TextOf(At(p, c))
    ensures c in p ==> LinkId(p[c]).Some?
    ensures At(p, c) == Nothing || (LooseRecordId(LinkOr(p, c)) && LinkOr(p, c) != "")
    ensures At(p, c) == Nothing ==> LinkOr(p, c) == ""
  {
    if c in p { SettledLink(p[c]); }
  }

  /** What reaches the writer of a payload's links. */
  lemma GoodLinksReachWriter(p: Payload)
    requires GoodPaymentLinks(p)
    ensures LinksGood(p, PaymentLinks())
    ensures var x := PaymentInputsOf(p);
      && x.chargeId == TextOf(At(p, ChargeColumn)) && LooseRecordId(x.chargeId)
      && x.paymentTermId == TextOf(At(p, PaymentTermColumn)) && (x.paymentTermId == "" <==> At(p, PaymentTermColumn) == Nothing)
      && x.contactId == TextOf(At(p, CounterpartyContactColumn))
      && (x.contactId == "" <==> At(p, CounterpartyContactColumn) == Nothing)
      && x.organizationId == TextOf(At(p, CounterpartyOrganizationColumn))
      && (x.organizationId == "" <==> At(p, CounterpartyOrganizationColumn) == Nothing)
      && (x.paymentTermId == "" || LooseRecordId(x.paymentTermId)) && (x.contactId == "" || LooseRecordId(x.contactId))
      && (x.organizationId == "" || LooseRecordId(x.organizationId))
  {
    LinkReachesWriter(p, ChargeColumn);
    LinkReachesWriter(p, DealIdKey);
    LinkReachesWriter(p, PaymentTermColumn);
    LinkReachesWriter(p, CounterpartyContactColumn);
    LinkReachesWriter(p, CounterpartyOrganizationColumn);
  }

  lemma GoodPaymentTranslates(p: Payload)
    requires GoodPaymentLinks(p) && GoodPaymentValues(p)
    ensures TranslatePayment(p) == Inputs(PaymentInputsOf(p))
  {
    GoodLinksReachWriter(p);
  }

  lemma GoodPaymentPasses(p: Payload)
    requires GoodPaymentValues(p)
    ensures var x := PaymentInputsOf(p);
      Chosen(x.direction, Directions) && Chosen(x.currency, Currencies) && PaymentValueFault(x) == None
  {
  }

  predicate IdLength(v: Value) { v == Nothing || |TextOf(v)| == 17 }

  /** A Payment completed from nothing by accepted answers translates, and passes every check its writer makes without
      reading a record exactly when the ids of its Charge and, where given, its Term and counterparties have seventeen
      characters. */
  lemma AnsweredPaymentAccepted(w: Writer)
    requires AnsweredPayment(w)
    ensures CompletePayload(w) == Some(PayloadFor(w))
    ensures TranslatePayment(PayloadFor(w)) == Inputs(PaymentInputsOf(PayloadFor(w)))
    ensures PaymentFault(PaymentInputsOf(PayloadFor(w))) == None
       <==> IdLength(Get(Resolved(w), Charge)) && IdLength(Get(Resolved(w), PaymentTerm))
            && IdLength(Get(Resolved(w), CounterpartyContact)) && IdLength(Get(Resolved(w), CounterpartyOrganization))
  {
    PaymentIsGood(w);
    PaymentChargeLink(w);
    PaymentPaymentTermLink(w);
    PaymentCounterpartyContactLink(w);
    PaymentCounterpartyOrganizationLink(w);
    GoodPaymentFault(PayloadFor(w));
  }

  lemma PaymentIsGood(w: Writer)
    requires AnsweredPayment(w)
    ensures GoodPaymentLinks(PayloadFor(w)) && GoodPaymentValues(PayloadFor(w))
    ensures TranslatePayment(PayloadFor(w)) == Inputs(PaymentInputsOf(PayloadFor(w)))
  {
    PaymentLinksGood(w);
    PaymentValuesGood(w);
    GoodPaymentTranslates(PayloadFor(w));
  }

  lemma GoodPaymentFault(p: Payload)
    requires GoodPaymentLinks(p) && GoodPaymentValues(p)
    ensures PaymentFault(PaymentInputsOf(p)) == None
       <==> IdLength(At(p, ChargeColumn)) && IdLength(At(p, PaymentTermColumn))
            && IdLength(At(p, CounterpartyContactColumn)) && IdLength(At(p, CounterpartyOrganizationColumn))
  {
    GoodPaymentPasses(p);
    GoodLinksReachWriter(p);
  }

  // ---- nothing is lost ----

  predicate PaymentPassedOn(c: Column) {
    match c
    case DirectionColumn | LowerAmount | CurrencyColumn | PaidAtColumn | LowerStatus | DocumentRequirementColumn => true
    case DocumentStatusColumn | LowerReference | MethodColumn | NotesColumn => true
    case _ => false
  }

  predicate PaymentLinked(c: Column) {
    match c
    case ChargeColumn | DealIdKey | PaymentTermColumn | CounterpartyContactColumn | CounterpartyOrganizationColumn => true
    case _ => false
  }

  lemma PaymentRowIsKnown(i: nat)
    requires i < 15
    ensures PaymentPassedOn(PaymentRow(i).1) || PaymentLinked(PaymentRow(i).1)
  {
  }

  lemma PaymentPayloadColumn(w: Writer, c: Column)
    requires w.contract == PaymentContract() && c in PayloadFor(w)
    ensures PaymentPassedOn(c) || PaymentLinked(c)
  {
    var i := PayloadCame(Resolved(w), w.contract.fields, c);
    TableAt(15, PaymentRow, PaymentRule, i);
    PaymentRowIsKnown(i);
  }

  lemma SameInputsSamePaymentColumn(p: Payload, q: Payload, c: Column)
    requires PaymentInputsOf(p) == PaymentInputsOf(q) && PaymentPassedOn(c)
    ensures At(p, c) == At(q, c)
  {
  }

  lemma SamePaymentLink(p: Payload, q: Payload, c: Column)
    requires GoodPaymentLinks(p) && GoodPaymentLinks(q) && PaymentInputsOf(p) == PaymentInputsOf(q) && PaymentLinked(c)
    ensures At(p, c) == At(q, c)
  {
    SameLink(p, q, c);
  }

  lemma SameInputsSamePayload(p: Payload, q: Payload, c: Column)
    requires GoodPaymentLinks(p) && GoodPaymentLinks(q) && PaymentInputsOf(p) == PaymentInputsOf(q)
    requires PaymentPassedOn(c) || PaymentLinked(c)
    ensures At(p, c) == At(q, c)
  {
    if PaymentPassedOn(c) { SameInputsSamePaymentColumn(p, q, c); } else { SamePaymentLink(p, q, c); }
  }

  /** Two Payments completed by answers that reach the writer with the same arguments had the same payload. */
  lemma TranslationLosesNothing(w1: Writer, w2: Writer, c: Column)
    requires AnsweredPayment(w1) && AnsweredPayment(w2)
    requires PaymentInputsOf(PayloadFor(w1)) == PaymentInputsOf(PayloadFor(w2))
    ensures At(PayloadFor(w1), c) == At(PayloadFor(w2), c)
  {
    var p, q := PayloadFor(w1), PayloadFor(w2);
    PaymentLinksGood(w1);
    PaymentLinksGood(w2);
    if c in p {
      PaymentPayloadColumn(w1, c);
      SameInputsSamePayload(p, q, c);
    } else if c in q {
      PaymentPayloadColumn(w2, c);
      SameInputsSamePayload(p, q, c);
    }
  }
}
