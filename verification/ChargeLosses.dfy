/** What of an answered Charge its writer gets to see: everything but the reference. */
module ChargeLosses {
  import opened Prelude
  import opened Texts
  import opened Vocabulary
  import opened CompletionEngine
  import opened CompletionAnswers
  import opened CompletionPayload
  import opened CommercialContracts
  import opened ContractLaws
  import opened CommercialChecks
  import opened CommercialTranslation
  import opened ChargeAnswers

  /** The reference a user gave never reaches the writer, whatever the payload: it is looked for in a column that no
      Charge has. */
  lemma ReferenceIsDropped(w: Writer)
    requires w.contract == ChargeContract()
    ensures ChargeInputsOf(PayloadFor(w)).reference == Nothing
  {
    forall i | 0 <= i < |w.contract.fields| ensures w.contract.fields[i].column != ReferenceColumn {
      TableAt(25, ChargeRow, ChargeRule, i);
      ChargeColumnPlacedAt(i);
    }
    PayloadMisses(Resolved(w), w.contract.fields, ReferenceColumn);
  }

  // ---- what the translation keeps ----

  lemma ChargeComputedFields()
    ensures ChargeRule(TotalPaid) == System() && ChargeRule(RemainingBalance) == System()
  {
  }

  lemma UnaskedChargeColumn(w: Writer, f: Field, rule: Rule)
    requires AnsweredCharge(w) && ChargePlace(f) < 25 && rule == ChargeRule(f) && f != DocumentStatus
    requires !rule.manual && rule.persisted && rule.input != Computed && rule.default == Nothing
    ensures ChargeColumnOf(f) !in PayloadFor(w)
  {
    ChargeIsAnswered(w);
    ChargeEntry(f);
    UnaskedColumn(w, ChargePlace(f));
  }

  lemma NoTriggerEvidence(w: Writer)
    requires AnsweredCharge(w)
    ensures TriggerEvidenceColumn !in PayloadFor(w)
  {
    UnaskedChargeColumn(w, TriggerEvidence, ChargeRule(TriggerEvidence));
  }

  lemma NoTermsSnapshot(w: Writer)
    requires AnsweredCharge(w)
    ensures OriginalTermsSnapshotColumn !in PayloadFor(w)
  {
    UnaskedChargeColumn(w, OriginalTermsSnapshot, ChargeRule(OriginalTermsSnapshot));
  }

  /** The columns the translation passes on as they are. */
  predicate PassedOn(c: Column) {
    match c
    case DirectionColumn | AmountColumn | CurrencyCode | StatusColumn | CollectionStateColumn | VatRuleColumn => true
    case DocumentRequirementColumn | DocumentStatusColumn | OriginalDueDateColumn | CurrentExpectedDateColumn => true
    case BaseAmountColumn | RatePctColumn | QuantityColumn | UnitRateColumn | VatAmountColumn => true
    case PromisedPaymentDateColumn | PromisedPaymentAmountColumn | NotesColumn => true
    case _ => false
  }

  predicate ChargeColumnKnown(c: Column) {
    || PassedOn(c)
    || c in {DealColumn, BillingTermColumn, ChargeReferenceColumn, TriggerEvidenceColumn, OriginalTermsSnapshotColumn}
  }

  /** Every column of a Charge is known but the two the store computes. */
  lemma RowIsKnown(i: nat)
    requires i < 25 && ChargeRow(i).0 != TotalPaid && ChargeRow(i).0 != RemainingBalance
    ensures ChargeColumnKnown(ChargeRow(i).1)
  {
  }

  lemma CarriedColumnIsKnown(i: nat)
    requires i < 25 && Carried(ChargeContract().fields[i])
    ensures ChargeColumnKnown(ChargeContract().fields[i].column)
  {
    TableAt(25, ChargeRow, ChargeRule, i);
    ChargeComputedFields();
    RowIsKnown(i);
  }

  lemma ChargeColumnIsPassedOn(w: Writer, col: Column)
    requires AnsweredCharge(w) && col in PayloadFor(w)
    ensures PassedOn(col) || col in {DealColumn, BillingTermColumn, ChargeReferenceColumn}
  {
    NoTriggerEvidence(w);
    NoTermsSnapshot(w);
    var i := PayloadCame(Resolved(w), w.contract.fields, col);
    CarriedColumnIsKnown(i);
  }

  lemma SameInputsSameColumn(p: Payload, q: Payload, col: Column)
    requires ChargeInputsOf(p) == ChargeInputsOf(q) && PassedOn(col)
    ensures At(p, col) == At(q, col)
  {
  }

  lemma SameInputsSameLinks(p: Payload, q: Payload)
    requires GoodCharge(p) && GoodCharge(q) && ChargeInputsOf(p) == ChargeInputsOf(q)
    ensures At(p, DealColumn) == At(q, DealColumn) && At(p, BillingTermColumn) == At(q, BillingTermColumn)
  {
    SameLink(p, q, DealColumn);
    SameLink(p, q, BillingTermColumn);
  }

  // ---- the other columns decide the arguments ----

  ghost predicate AlikeButReference(p: Payload, q: Payload) {
    forall col :: col != ChargeReferenceColumn ==> At(p, col) == At(q, col)
  }

  lemma Alike(p: Payload, q: Payload, col: Column)
    requires AlikeButReference(p, q) && col != ChargeReferenceColumn
    ensures At(p, col) == At(q, col)
  {
  }

  lemma PartiesDecided(p: Payload, q: Payload)
    requires AlikeButReference(p, q)
    ensures var x, y := ChargeInputsOf(p), ChargeInputsOf(q);
      && x.dealId == y.dealId && x.billingTermId == y.billingTermId && x.direction == y.direction
      && x.amount == y.amount
  {
    Alike(p, q, DealColumn);
    Alike(p, q, BillingTermColumn);
    Alike(p, q, DirectionColumn);
    Alike(p, q, AmountColumn);
  }

  lemma StatesDecided(p: Payload, q: Payload)
    requires AlikeButReference(p, q)
    ensures var x, y := ChargeInputsOf(p), ChargeInputsOf(q);
      && x.currency == y.currency && x.status == y.status && x.collectionState == y.collectionState
      && x.vatRule == y.vatRule
  {
    Alike(p, q, CurrencyCode);
    Alike(p, q, StatusColumn);
    Alike(p, q, CollectionStateColumn);
    Alike(p, q, VatRuleColumn);
  }

  lemma DocumentsDecided(p: Payload, q: Payload)
    requires AlikeButReference(p, q)
    ensures var x, y := ChargeInputsOf(p), ChargeInputsOf(q);
      && x.requirement == y.requirement && x.documentStatus == y.documentStatus
      && x.reference == y.reference && x.notes == y.notes
  {
    Alike(p, q, DocumentRequirementColumn);
    Alike(p, q, DocumentStatusColumn);
    Alike(p, q, ReferenceColumn);
    Alike(p, q, NotesColumn);
  }

  lemma DatesDecided(p: Payload, q: Payload)
    requires AlikeButReference(p, q)
    ensures var x, y := ChargeInputsOf(p), ChargeInputsOf(q);
      && x.originalDueDate == y.originalDueDate && x.currentExpectedDate == y.currentExpectedDate
      && x.promisedDate == y.promisedDate && x.promisedAmount == y.promisedAmount
  {
    Alike(p, q, OriginalDueDateColumn);
    Alike(p, q, CurrentExpectedDateColumn);
    Alike(p, q, PromisedPaymentDateColumn);
    Alike(p, q, PromisedPaymentAmountColumn);
  }

  lemma AmountsDecided(p: Payload, q: Payload)
    requires AlikeButReference(p, q)
    ensures var x, y := ChargeInputsOf(p), ChargeInputsOf(q);
      && x.baseAmount == y.baseAmount && x.ratePct == y.ratePct && x.quantity == y.quantity
      && x.unitRate == y.unitRate && x.vatAmount == y.vatAmount
  {
    Alike(p, q, BaseAmountColumn);
    Alike(p, q, RatePctColumn);
    Alike(p, q, QuantityColumn);
    Alike(p, q, UnitRateColumn);
    Alike(p, q, VatAmountColumn);
  }

  lemma OtherColumnsDecide(p: Payload, q: Payload)
    requires AlikeButReference(p, q)
    ensures ChargeInputsOf(p) == ChargeInputsOf(q)
  {
    PartiesDecided(p, q);
    StatesDecided(p, q);
    DocumentsDecided(p, q);
    DatesDecided(p, q);
    AmountsDecided(p, q);
  }

  lemma OtherColumnIsRead(w1: Writer, w2: Writer, col: Column)
    requires AnsweredCharge(w1) && AnsweredCharge(w2)
    requires ChargeInputsOf(PayloadFor(w1)) == ChargeInputsOf(PayloadFor(w2))
    requires col != ChargeReferenceColumn
    ensures At(PayloadFor(w1), col) == At(PayloadFor(w2), col)
  {
    var p, q := PayloadFor(w1), PayloadFor(w2);
    if col in p { ChargeColumnIsPassedOn(w1, col); }
    if col in q { ChargeColumnIsPassedOn(w2, col); }
    AnsweredChargeIsGood(w1);
    AnsweredChargeIsGood(w2);
    SameInputsSameLinks(p, q);
    if PassedOn(col) { SameInputsSameColumn(p, q, col); }
  }

  /** Two Charges completed by answers reach the writer with the same arguments exactly when their payloads agree but for
      the reference: that is lost, and nothing else. */
  lemma TranslationLosesOnlyTheReference(w1: Writer, w2: Writer)
    requires AnsweredCharge(w1) && AnsweredCharge(w2)
    ensures ChargeInputsOf(PayloadFor(w1)) == ChargeInputsOf(PayloadFor(w2))
       <==> AlikeButReference(PayloadFor(w1), PayloadFor(w2))
  {
    if AlikeButReference(PayloadFor(w1), PayloadFor(w2)) { OtherColumnsDecide(PayloadFor(w1), PayloadFor(w2)); }
    if ChargeInputsOf(PayloadFor(w1)) == ChargeInputsOf(PayloadFor(w2)) {
      forall col | col != ChargeReferenceColumn ensures At(PayloadFor(w1), col) == At(PayloadFor(w2), col) {
        OtherColumnIsRead(w1, w2, col);
      }
    }
  }

  // ---- a reference that is lost ----

  /** A reference can be answered: its field is one of text. */
  lemma ReferenceIsAsked(s: string)
    requires Strip(s) != ""
    ensures ChargePlace(Reference) < |ChargeContract().fields|
    ensures var c := ChargeContract().fields[ChargePlace(Reference)];
      && c.name == Reference && c.column == ChargeReferenceColumn && Carried(c)
      && Accepts(c, Word(s)) && Kept(c, Word(s)) == Word(s)
  {
    var rule := ChargeRule(Reference);
    ChargeEntry(Reference);
  }

  lemma UnseenReference(w: Writer, i: nat, v: Value)
    requires WellFormed(w.contract) && OwnColumns(w.contract.fields) && i < |w.contract.fields|
    requires var c := w.contract.fields[i];
      c.name == Reference && c.column == ChargeReferenceColumn && Carried(c) && Accepts(c, v) && Kept(c, v) == v
    ensures var w1 := w.(current := w.current[Reference := v]);
      At(PayloadFor(w1), ChargeReferenceColumn) == v && ChargeInputsOf(PayloadFor(w1)) == ChargeInputsOf(PayloadFor(w))
  {
    AnswerChangesItsColumn(w, i, v);
    OtherColumnsDecide(PayloadFor(w.(current := w.current[Reference := v])), PayloadFor(w));
  }

  lemma ReferencedCharge(w: Writer, s: string) returns (w1: Writer)
    requires AnsweredCharge(w) && AllAnswered(w) && Strip(s) != ""
    ensures AnsweredCharge(w1) && At(PayloadFor(w1), ChargeReferenceColumn) == Word(s)
    ensures ChargeInputsOf(PayloadFor(w1)) == ChargeInputsOf(PayloadFor(w))
  {
    ChargeIsAnswered(w);
    ReferenceIsAsked(s);
    AnswerStands(w, ChargePlace(Reference), Word(s));
    UnseenReference(w, ChargePlace(Reference), Word(s));
    w1 := w.(current := w.current[Reference := Word(s)]);
  }

  /** Any two references stand in two answered Charges that reach the writer alike. */
  lemma ReferencesCanDiffer(s: string, t: string) returns (w1: Writer, w2: Writer)
    requires Strip(s) != "" && Strip(t) != ""
    ensures AnsweredCharge(w1) && AnsweredCharge(w2)
    ensures At(PayloadFor(w1), ChargeReferenceColumn) == Word(s) && At(PayloadFor(w2), ChargeReferenceColumn) == Word(t)
    ensures ChargeInputsOf(PayloadFor(w1)) == ChargeInputsOf(PayloadFor(w2))
  {
    ChargeWellFormed();
    var w := AnsweredExists(ChargeContract());
    w1 := ReferencedCharge(w, s);
    w2 := ReferencedCharge(w, t);
  }
}
