/** What of an answered Payment Term its writer gets to see: sixteen columns whole, and of thirteen others nothing. */
module TermLosses {
  import opened Prelude
  import opened Vocabulary
  import opened CompletionEngine
  import opened CompletionAnswers
  import opened CompletionPayload
  import opened CommercialContracts
  import opened ContractLaws
  import opened CommercialChecks
  import opened CommercialTranslation
  import opened TermAnswers

  predicate GivenToWriter(c: Column) {
    match c
    case DealColumn | NameColumn | CalculationTypeCode | DirectionColumn | CurrencyColumn | FixedAmountColumn => true
    case RatePctColumn | CalculationBasisCode | TriggerTypeCode | TriggerDateColumn | TriggerDelayDaysColumn => true
    case CadenceCode | VatRuleColumn | StartDateColumn | EndDateColumn | NotesColumn => true
    case _ => false
  }

  /** A field of a Term that can be asked for and whose column is not given to the writer. */
  predicate Lost(f: Field) { PaymentTermPlace(f) < 30 && f != NextDueDate && !GivenToWriter(PaymentTermColumnOf(f)) }

  ghost predicate GivenAlike(p: Payload, q: Payload) { forall c :: GivenToWriter(c) ==> At(p, c) == At(q, c) }

  // ---- the given columns decide the arguments ----

  lemma Alike(p: Payload, q: Payload, c: Column)
    requires GivenAlike(p, q) && GivenToWriter(c)
    ensures At(p, c) == At(q, c)
  {
  }

  lemma PartiesDecided(p: Payload, q: Payload)
    requires GivenAlike(p, q)
    ensures var x, y := TermInputsOf(p), TermInputsOf(q);
      x.dealId == y.dealId && x.name == y.name && x.calcType == y.calcType && x.direction == y.direction
  {
    Alike(p, q, DealColumn);
    Alike(p, q, NameColumn);
    Alike(p, q, CalculationTypeCode);
    Alike(p, q, DirectionColumn);
  }

  lemma AmountsDecided(p: Payload, q: Payload)
    requires GivenAlike(p, q)
    ensures var x, y := TermInputsOf(p), TermInputsOf(q);
      && x.currency == y.currency && x.fixedAmount == y.fixedAmount && x.ratePct == y.ratePct
      && x.calcBasis == y.calcBasis
  {
    Alike(p, q, CurrencyColumn);
    Alike(p, q, FixedAmountColumn);
    Alike(p, q, RatePctColumn);
    Alike(p, q, CalculationBasisCode);
  }

  lemma TriggersDecided(p: Payload, q: Payload)
    requires GivenAlike(p, q)
    ensures var x, y := TermInputsOf(p), TermInputsOf(q);
      && x.triggerType == y.triggerType && x.triggerDate == y.triggerDate && x.triggerDelayDays == y.triggerDelayDays
      && x.cadence == y.cadence
  {
    Alike(p, q, TriggerTypeCode);
    Alike(p, q, TriggerDateColumn);
    Alike(p, q, TriggerDelayDaysColumn);
    Alike(p, q, CadenceCode);
  }

  lemma PeriodDecided(p: Payload, q: Payload)
    requires GivenAlike(p, q)
    ensures var x, y := TermInputsOf(p), TermInputsOf(q);
      x.vatRule == y.vatRule && x.startDate == y.startDate && x.endDate == y.endDate && x.notes == y.notes
  {
    Alike(p, q, VatRuleColumn);
    Alike(p, q, StartDateColumn);
    Alike(p, q, EndDateColumn);
    Alike(p, q, NotesColumn);
  }

  lemma GivenColumnsDecide(p: Payload, q: Payload)
    requires GivenAlike(p, q)
    ensures TermInputsOf(p) == TermInputsOf(q)
  {
    PartiesDecided(p, q);
    AmountsDecided(p, q);
    TriggersDecided(p, q);
    PeriodDecided(p, q);
  }

  // ---- and can be read off them ----

  predicate HasDefaultInWriter(c: Column) {
    match c
    case NameColumn | TriggerTypeCode | CadenceCode | VatRuleColumn => true
    case _ => false
  }

  lemma NameIsThere(w: Writer)
    requires AnsweredTerm(w)
    ensures At(PayloadFor(w), NameColumn) != Nothing
  {
    TermColumn(w, Name, PaymentTermRule(Name));
  }

  lemma TriggerIsThere(w: Writer)
    requires AnsweredTerm(w)
    ensures At(PayloadFor(w), TriggerTypeCode) != Nothing
  {
    TermColumn(w, TriggerType, PaymentTermRule(TriggerType));
  }

  lemma CadenceIsThere(w: Writer)
    requires AnsweredTerm(w)
    ensures At(PayloadFor(w), CadenceCode) != Nothing
  {
    TermColumn(w, Cadence, PaymentTermRule(Cadence));
  }

  lemma VatRuleIsThere(w: Writer)
    requires AnsweredTerm(w)
    ensures At(PayloadFor(w), VatRuleColumn) != Nothing
  {
    TermColumn(w, VatRuleField, PaymentTermRule(VatRuleField));
  }

  lemma DefaultIsThere(w: Writer, c: Column)
    requires AnsweredTerm(w) && HasDefaultInWriter(c)
    ensures At(PayloadFor(w), c) != Nothing
  {
    NameIsThere(w);
    TriggerIsThere(w);
    CadenceIsThere(w);
    VatRuleIsThere(w);
  }

  predicate Early(c: Column) {
    match c
    case DirectionColumn | CalculationTypeCode | CurrencyColumn | FixedAmountColumn | RatePctColumn | CalculationBasisCode => true
    case _ => false
  }

  lemma EarlyColumnIsRead(p: Payload, q: Payload, c: Column)
    requires TermInputsOf(p) == TermInputsOf(q) && Early(c)
    ensures At(p, c) == At(q, c)
  {
  }

  predicate Late(c: Column) {
    match c
    case TriggerDateColumn | TriggerDelayDaysColumn | StartDateColumn | EndDateColumn | NotesColumn => true
    case _ => false
  }

  lemma LateColumnIsRead(p: Payload, q: Payload, c: Column)
    requires TermInputsOf(p) == TermInputsOf(q) && Late(c)
    ensures At(p, c) == At(q, c)
  {
  }

  lemma DefaultedColumnIsRead(p: Payload, q: Payload, c: Column)
    requires TermInputsOf(p) == TermInputsOf(q) && HasDefaultInWriter(c)
    requires At(p, c) != Nothing && At(q, c) != Nothing
    ensures At(p, c) == At(q, c)
  {
  }

  lemma GivenColumnIsRead(w1: Writer, w2: Writer, c: Column)
    requires AnsweredTerm(w1) && AnsweredTerm(w2) && TermInputsOf(PayloadFor(w1)) == TermInputsOf(PayloadFor(w2))
    requires GivenToWriter(c)
    ensures At(PayloadFor(w1), c) == At(PayloadFor(w2), c)
  {
    var p, q := PayloadFor(w1), PayloadFor(w2);
    if c == DealColumn {
      TermDeal(w1);
      TermDeal(w2);
      SameLink(p, q, DealColumn);
    } else if HasDefaultInWriter(c) {
      DefaultIsThere(w1, c);
      DefaultIsThere(w2, c);
      DefaultedColumnIsRead(p, q, c);
    } else {
      if Early(c) { EarlyColumnIsRead(p, q, c); } else { LateColumnIsRead(p, q, c); }
    }
  }

  /** Two Terms completed by answers reach the writer with the same arguments exactly when they agree on the columns
      given to it: those arrive whole, and nothing else arrives. */
  lemma ArrivesExactly(w1: Writer, w2: Writer)
    requires AnsweredTerm(w1) && AnsweredTerm(w2)
    ensures TermInputsOf(PayloadFor(w1)) == TermInputsOf(PayloadFor(w2)) <==> GivenAlike(PayloadFor(w1), PayloadFor(w2))
  {
    if GivenAlike(PayloadFor(w1), PayloadFor(w2)) { GivenColumnsDecide(PayloadFor(w1), PayloadFor(w2)); }
    if TermInputsOf(PayloadFor(w1)) == TermInputsOf(PayloadFor(w2)) {
      forall c | GivenToWriter(c) ensures At(PayloadFor(w1), c) == At(PayloadFor(w2), c) { GivenColumnIsRead(w1, w2, c); }
    }
  }

  // ---- an answer that is lost ----

  predicate IsAsked(rule: Rule) { rule.manual && rule.input != Computed && rule.persisted }

  lemma LostAmountsAreAsked(i: nat)
    requires 7 <= i < 12
    ensures IsAsked(PaymentTermRule(PaymentTermRow(i).0))
  {
  }

  lemma LostDatesAreAsked(i: nat)
    requires i == 13 || 17 <= i < 21
    ensures IsAsked(PaymentTermRule(PaymentTermRow(i).0))
  {
  }

  lemma LostDaysAreAsked(i: nat)
    requires i in {21, 22, 24}
    ensures IsAsked(PaymentTermRule(PaymentTermRow(i).0))
  {
  }

  lemma LostPlaces(i: nat)
    requires i < 30 && i != 25 && !GivenToWriter(PaymentTermRow(i).1)
    ensures 7 <= i < 12 || i == 13 || 17 <= i < 23 || i == 24
  {
  }

  /** Each of the thirteen can be asked for. */
  lemma LostFieldIsAsked(f: Field)
    requires Lost(f)
    ensures PaymentTermPlace(f) < |PaymentTermContract().fields|
    ensures var c := PaymentTermContract().fields[PaymentTermPlace(f)];
      Askable(c) && Carried(c) && c.name == f && c.column == PaymentTermColumnOf(f)
  {
    var i := PaymentTermPlace(f);
    PaymentTermHasField(f);
    LostPlaces(i);
    if i < 12 { LostAmountsAreAsked(i); } else if i < 21 { LostDatesAreAsked(i); } else { LostDaysAreAsked(i); }
    PaymentTermEntry(f);
  }

  lemma NoDocumentsInTerms(i: nat)
    requires i < 30
    ensures PaymentTermRow(i).0 != DocumentStatus
  {
  }

  lemma NoDocumentFieldInTerms()
    ensures NoDocuments(PaymentTermContract())
  {
    forall i | 0 <= i < 30 ensures PaymentTermContract().fields[i].name != DocumentStatus {
      TableAt(30, PaymentTermRow, PaymentTermRule, i);
      NoDocumentsInTerms(i);
    }
  }

  lemma TermIsPlain()
    ensures var e := PaymentTermContract();
      WellFormed(e) && OwnColumns(e.fields) && NoDocuments(e) && !e.systemOnly
  {
    PaymentTermWellFormed();
    PaymentTermOwnColumns();
    NoDocumentFieldInTerms();
  }

  /** The payload that an answer to a field of that kind leaves, and what of it the writer sees. */
  lemma UnseenAnswer(w: Writer, i: nat, v: Value)
    requires WellFormed(w.contract) && OwnColumns(w.contract.fields) && NoDocuments(w.contract)
    requires i < |w.contract.fields| && Carried(w.contract.fields[i]) && Accepts(w.contract.fields[i], v)
    requires !GivenToWriter(w.contract.fields[i].column)
    ensures var c := w.contract.fields[i];
      var w1 := w.(current := w.current[c.name := Kept(c, v)]);
      && ApplyAnswer(w, c.name, v) == Applied(w1)
      && (FromAnswers(w) ==> FromAnswers(w1))
      && At(PayloadFor(w1), c.column) == Kept(c, v)
      && TermInputsOf(PayloadFor(w1)) == TermInputsOf(PayloadFor(w))
  {
    var c := w.contract.fields[i];
    var w1 := w.(current := w.current[c.name := Kept(c, v)]);
    AnswerChangesItsColumn(w, i, v);
    assert GivenAlike(PayloadFor(w1), PayloadFor(w));
    GivenColumnsDecide(PayloadFor(w1), PayloadFor(w));
  }

  function TermField(f: Field): FieldContract
    requires Lost(f)
  {
    FieldContract(f, PaymentTermColumnOf(f), PaymentTermRule(f), None)
  }

  /** An answer to such a field changes that column of the payload and nothing that reaches the writer. */
  lemma LostAnswerIsLost(w: Writer, f: Field, v: Value)
    requires AnsweredTerm(w) && Lost(f) && Accepts(TermField(f), v)
    ensures var w1 := w.(current := w.current[f := Kept(TermField(f), v)]);
      && ApplyAnswer(w, f, v) == Applied(w1)
      && At(PayloadFor(w1), PaymentTermColumnOf(f)) == Kept(TermField(f), v)
      && TermInputsOf(PayloadFor(w1)) == TermInputsOf(PayloadFor(w))
      && (Complete(w1) ==> AnsweredTerm(w1))
  {
    TermIsPlain();
    LostFieldIsAsked(f);
    PaymentTermEntry(f);
    UnseenAnswer(w, PaymentTermPlace(f), v);
  }

  /** Every one of the thirteen columns can be lost: any two accepted answers to its field stand in two answered Terms
      that reach the writer alike. */
  lemma EveryLostColumnCanDiffer(f: Field, v1: Value, v2: Value) returns (w1: Writer, w2: Writer)
    requires Lost(f) && Accepts(TermField(f), v1) && Accepts(TermField(f), v2)
    ensures AnsweredTerm(w1) && AnsweredTerm(w2)
    ensures At(PayloadFor(w1), PaymentTermColumnOf(f)) == Kept(TermField(f), v1)
    ensures At(PayloadFor(w2), PaymentTermColumnOf(f)) == Kept(TermField(f), v2)
    ensures TermInputsOf(PayloadFor(w1)) == TermInputsOf(PayloadFor(w2))
  {
    TermIsPlain();
    var w := AnsweredExists(PaymentTermContract());
    w1 := LostAnswerStands(w, f, v1);
    w2 := LostAnswerStands(w, f, v2);
  }

  lemma LostAnswerStands(w: Writer, f: Field, v: Value) returns (w1: Writer)
    requires AnsweredTerm(w) && AllAnswered(w) && Lost(f) && Accepts(TermField(f), v)
    ensures AnsweredTerm(w1) && At(PayloadFor(w1), PaymentTermColumnOf(f)) == Kept(TermField(f), v)
    ensures TermInputsOf(PayloadFor(w1)) == TermInputsOf(PayloadFor(w))
  {
    TermIsPlain();
    LostAnswerIsLost(w, f, v);
    LostFieldIsAsked(f);
    PaymentTermEntry(f);
    AnswerStands(w, PaymentTermPlace(f), v);
    w1 := w.(current := w.current[f := Kept(TermField(f), v)]);
  }
}
