/** What each commercial writer leaves in the store, column by column, and what it refuses. */
module CommercialRows {
  import opened Prelude
  import opened Texts
  import opened StoreOutcomes
  import opened PaymentMath
  import opened DateAnswers
  import opened Vocabulary
  import opened CompletionEngine
  import opened CompletionAnswers
  import opened CommercialContracts
  import opened CommercialChecks
  import opened ChargeReference
  import opened CommercialTables
  import opened TermPricing
  import opened CommercialRuns

  // ---- values ----

  predicate SaysOne(v: Value, words: set<string>) { v.Text? && v.s in words }

  /** The value is a number, or spells one, that is above zero or at least not below it. */
  predicate NumberAbove(v: Value, above: bool) {
    || (v.Number? && if above then v.r > 0.0 else v.r >= 0.0)
    || (v.Text? && v.reading.Some? && if above then v.reading.value > 0.0 else v.reading.value >= 0.0)
  }

  /** The full-date of some day. */
  ghost predicate FullDate(v: Value) { v.Text? && exists d :: ValidDate(d) && v.s == Iso(d) }

  /** No document is needed exactly when none is asked for. */
  predicate PairGood(requirement: Value, status: Value) {
    && SaysOne(requirement, {"receipt_required", "invoice_required", "expense_document_required", "none"})
    && SaysOne(status, {"not_required", "required", "requested", "issued", "received", "stored"})
    && (requirement.s == "none" <==> status.s == "not_required")
  }

  lemma StrictIsFullDate(s: string)
    ensures StrictIsoDate(s) <==> exists d :: ValidDate(d) && s == Iso(d)
  {
    StrictIffFixedPoint(s);
    NormalizeExactly(s, s);
    if d :| ValidDate(d) && s == Iso(d) { IsoIsRead(d); }
  }

  lemma DateGood(v: Value)
    ensures ValidDateOrAbsent(v) <==> IsBlank(v) || FullDate(v)
  {
    BlankIsFalse(v);
    FullDateGood(v);
  }

  lemma FullDateGood(v: Value)
    ensures v.Text? && StrictIsoDate(v.s) <==> FullDate(v)
  {
    if v.Text? { StrictIsFullDate(v.s); }
  }

  lemma PairIsGood(requirement: Value, status: Value)
    ensures DocumentFault(requirement, status) == None <==> PairGood(requirement, status)
  {
    assert forall s: string :: s in ["none"] <==> s == "none";
    assert forall s: string :: s in ["not_required"] <==> s == "not_required";
  }

  // ---- a Charge given directly ----

  ghost predicate ChargeNumbersGood(x: ChargeInputs) {
    && (x.baseAmount == Nothing || NumberAbove(x.baseAmount, false)) && (x.ratePct == Nothing || NumberAbove(x.ratePct, false))
    && (x.quantity == Nothing || NumberAbove(x.quantity, true)) && (x.unitRate == Nothing || NumberAbove(x.unitRate, true))
    && (x.vatAmount == Nothing || NumberAbove(x.vatAmount, false))
    && (x.promisedAmount == Nothing || NumberAbove(x.promisedAmount, true))
    && (forall r :: IsNumber(x.ratePct, r) ==> r <= 100.0)
    && (IsBlank(x.originalDueDate) || FullDate(x.originalDueDate))
    && (IsBlank(x.currentExpectedDate) || FullDate(x.currentExpectedDate))
    && (IsBlank(x.promisedDate) || FullDate(x.promisedDate))
  }

  ghost predicate ChargeGood(x: ChargeInputs) {
    && SaysOne(x.direction, {"receivable", "payable", "internal"}) && SaysOne(x.currency, {"ILS", "USD", "EUR"})
    && Chosen(x.status, ChargeStatuses) && Chosen(x.collectionState, CollectionStates)
    && SaysOne(x.vatRule, {"none", "add", "included"}) && PairGood(x.requirement, x.documentStatus)
    && NumberAbove(x.amount, true) && ChargeNumbersGood(x)
  }

  lemma ChargeNumbersExactly(x: ChargeInputs)
    ensures ChargeNumberFault(x) == None <==> ChargeNumbersGood(x)
  {
    DateGood(x.originalDueDate);
    DateGood(x.currentExpectedDate);
    DateGood(x.promisedDate);
    forall r ensures IsNumber(x.ratePct, r) <==> NumberOf(x.ratePct) == Some(r) {}
  }

  /** The values of a new Charge pass the checks exactly when each is what its column takes. */
  lemma ChargeValuesExactly(x: ChargeInputs)
    ensures ChargeValueFault(x) == None <==> ChargeGood(x)
  {
    PairIsGood(x.requirement, x.documentStatus);
    ChargeNumbersExactly(x);
  }

  /** What was given, column by column; an empty text leaves an optional column unset. */
  predicate ChargeIsGiven(c: ChargeRow, x: ChargeInputs, reference: string) {
    && c.deals == [x.dealId] && c.reference == reference
    && c.terms == (if x.billingTermId == "" then [] else [x.billingTermId])
    && c.leads == (if x.leadId == "" then [] else [x.leadId])
    && c.direction == x.direction && c.amount == x.amount && c.currency == x.currency && c.status == x.status
    && c.collectionState == x.collectionState && c.vatRule == x.vatRule && c.requirement == x.requirement
    && c.documentStatus == x.documentStatus && CopyOf(c.originalDueDate, x.originalDueDate)
    && CopyOf(c.currentExpectedDate, x.currentExpectedDate) && CopyOf(c.baseAmount, x.baseAmount)
    && CopyOf(c.ratePct, x.ratePct) && CopyOf(c.quantity, x.quantity) && CopyOf(c.unitRate, x.unitRate)
    && CopyOf(c.vatAmount, x.vatAmount) && CopyOf(c.promisedDate, x.promisedDate)
    && CopyOf(c.promisedAmount, x.promisedAmount) && CopyOf(c.notes, x.notes)
  }

  /** The Deal is there, and so is the Term if one is named, which is a Term of that Deal. */
  predicate ChargeRecordsGood(db: Db, x: ChargeInputs) {
    && RecordId(x.dealId) && x.dealId in db.deals
    && (x.billingTermId == ""
        || (RecordId(x.billingTermId) && x.billingTermId in db.terms && x.dealId in db.terms[x.billingTermId].deals))
  }

  predicate Reported(reply: Reply, o: AddOutcome) {
    reply == if o == Created || o == CreatedWithoutId then Done else NotDone
  }

  /** A Charge given directly is written as it was given exactly when its records are there and its values are good. */
  lemma DirectChargeExactly(db: Db, id: Id, x: ChargeInputs, reference: string, seen: bool, o: AddOutcome)
    ensures var (db1, reply) := CreateCharge(db, id, x, reference, seen, o);
      if seen && ChargeRecordsGood(db, x) && ChargeGood(x)
      then Reported(reply, o)
           && (if o == Created || o == CreatedWithoutId || o == UnknownWritten
               then id in db1.charges && ChargeIsGiven(db1.charges[id], x, reference)
                    && db1 == db.(charges := db.charges[id := db1.charges[id]])
               else db1 == db)
      else db1 == db && reply == Refused
  {
    ChargeValuesExactly(x);
  }

  // ---- a Payment ----

  /** The Charge is there, of this one Deal, direction and currency. */
  predicate ForCharge(db: Db, x: PaymentInputs) {
    && RecordId(x.chargeId) && x.chargeId in db.charges
    && var c := db.charges[x.chargeId];
    && c.deals == [x.dealId] && x.direction == c.direction && x.currency == c.currency
    && SaysOne(x.direction, {"receivable", "payable", "internal"}) && SaysOne(x.currency, {"ILS", "USD", "EUR"})
    && (x.paymentTermId == ""
        || (RecordId(x.paymentTermId) && x.paymentTermId in db.terms && x.paymentTermId in c.terms
            && x.dealId in db.terms[x.paymentTermId].deals))
  }

  predicate PartiesThere(db: Db, contact: Id, organization: Id) {
    && (contact == "" || (RecordId(contact) && contact in db.contacts))
    && (organization == "" || (RecordId(organization) && organization in db.organizations))
  }

  ghost predicate PaymentGood(x: PaymentInputs) {
    && NumberAbove(x.amount, true) && FullDate(x.paidAt) && Says(x.status, "received")
    && PairGood(x.requirement, x.documentStatus)
  }

  lemma PaymentValuesExactly(x: PaymentInputs)
    ensures PaymentValueFault(x) == None <==> PaymentGood(x)
  {
    PairIsGood(x.requirement, x.documentStatus);
    assert forall s: string :: s in ["received"] <==> s == "received";
    FullDateGood(x.paidAt);
  }

  predicate PaymentIsGiven(p: PaymentRow, x: PaymentInputs) {
    && p.charges == [x.chargeId] && p.deals == [x.dealId]
    && p.terms == (if x.paymentTermId == "" then [] else [x.paymentTermId])
    && p.direction == x.direction && p.amount == x.amount && p.currency == x.currency && p.paidAt == x.paidAt
    && p.status == x.status && p.requirement == x.requirement && p.documentStatus == x.documentStatus
    && CopyOf(p.reference, x.reference) && CopyOf(p.means, x.means) && CopyOf(p.notes, x.notes)
    && p.contacts == (if x.contactId == "" then [] else [x.contactId])
    && p.organizations == (if x.organizationId == "" then [] else [x.organizationId])
  }

  lemma NewPaymentIsGiven(x: PaymentInputs)
    ensures PaymentIsGiven(NewPayment(x), x)
  {
  }

  lemma ChargeIsMatched(db: Db, x: PaymentInputs)
    ensures ForCharge(db, x) <==>
      && RecordId(x.chargeId) && x.chargeId in db.charges
      && MatchesCharge(x, db.charges[x.chargeId]) && TermOfCharge(db, x, db.charges[x.chargeId])
  {
  }

  /** A Payment of a Charge is written as it was given exactly when it is of that Charge's Deal, direction and currency,
      its counterparties are there and its values are good. */
  lemma ChargePaymentExactly(db: Db, id: Id, x: PaymentInputs, seen: bool, o: AddOutcome)
    ensures var (db1, reply) := CreatePayment(db, id, x, seen, o);
      if seen && ForCharge(db, x) && PartiesThere(db, x.contactId, x.organizationId) && PaymentGood(x)
      then Reported(reply, o)
           && (if o == Created || o == CreatedWithoutId || o == UnknownWritten
               then id in db1.payments && PaymentIsGiven(db1.payments[id], x)
                    && db1 == db.(payments := db.payments[id := db1.payments[id]])
               else db1 == db)
      else db1 == db && reply == Refused
  {
    PaymentValuesExactly(x);
    NewPaymentIsGiven(x);
    ChargeIsMatched(db, x);
  }

  /** What an update gives of one column, or what stood there. */
  predicate Updated(v: Value, given: Option<Value>, stood: Value) { v == if given.Some? then given.value else stood }

  predicate Relinked(ids: seq<Id>, given: Option<Id>, stood: seq<Id>) {
    ids == if given == None then stood else if given.value == "" then [] else [given.value]
  }

  /** An update of a Payment changes what it gives and no financial column. */
  predicate PaymentIsPatched(q: PaymentRow, row: PaymentRow, p: PaymentPatch) {
    && q == row.(reference := q.reference, means := q.means, notes := q.notes, contacts := q.contacts,
                 organizations := q.organizations, requirement := q.requirement, documentStatus := q.documentStatus)
    && Updated(q.reference, p.reference, row.reference) && Updated(q.means, p.means, row.means)
    && Updated(q.notes, p.notes, row.notes) && Updated(q.requirement, p.requirement, row.requirement)
    && Updated(q.documentStatus, p.documentStatus, row.documentStatus)
    && Relinked(q.contacts, p.contact, row.contacts) && Relinked(q.organizations, p.organization, row.organizations)
  }

  /** What is refused whatever the record says. */
  predicate PatchFaulty(db: Db, id: Id, p: PaymentPatch, seen: bool) {
    || !RecordId(id) || p.financial || p.unsupported
    || p == PaymentPatch(None, None, None, None, None, None, None, false, false)
    || (p.contact.Some? && p.contact.value != "" && !(seen && RecordId(p.contact.value) && p.contact.value in db.contacts))
    || (p.organization.Some? && p.organization.value != ""
        && !(seen && RecordId(p.organization.value) && p.organization.value in db.organizations))
  }

  lemma PatchedRow(row: PaymentRow, p: PaymentPatch)
    ensures PaymentIsPatched(PatchPayment(row, p), row, p)
  {
  }

  function Given(given: Option<Value>, stood: Value): Value { if given.Some? then given.value else stood }

  lemma PairAsItWouldBe(row: PaymentRow, p: PaymentPatch)
    ensures PairFault(row, p) == None <==>
      (p.requirement.Some? || p.documentStatus.Some? ==>
         PairGood(Given(p.requirement, row.requirement), Given(p.documentStatus, row.documentStatus)))
  {
    PairIsGood(Given(p.requirement, row.requirement), Given(p.documentStatus, row.documentStatus));
  }

  lemma FaultyIsRefused(db: Db, id: Id, p: PaymentPatch, seen: bool)
    ensures PatchFaulty(db, id, p, seen) <==>
      || !RecordId(id) || p == NoPaymentPatch || p.financial || p.unsupported
      || !LinkReadable(p.contact, db.contacts, seen) || !LinkReadable(p.organization, db.organizations, seen)
  {
  }

  /** An update of a standing Payment is written exactly when it names nothing financial, its counterparties are there,
      and the document pair as it would be is good; half a pair needs the record read. */
  lemma PaymentUpdateExactly(db: Db, id: Id, p: PaymentPatch, seen: bool, u: UpdateOutcome)
    requires id in db.payments
    ensures var (db1, reply) := UpdatePayment(db, id, p, seen, u);
      var row := db.payments[id];
      var docs := p.requirement.Some? || p.documentStatus.Some?;
      if !PatchFaulty(db, id, p, seen)
         && (docs ==> PairGood(Given(p.requirement, row.requirement), Given(p.documentStatus, row.documentStatus)))
         && (docs && !(p.requirement.Some? && p.documentStatus.Some?) ==> seen)
      then reply == (if u.reported then Done else NotDone)
           && (if u.applied
               then id in db1.payments && PaymentIsPatched(db1.payments[id], row, p)
                    && db1 == db.(payments := db.payments[id := db1.payments[id]])
               else db1 == db)
      else db1 == db && reply == Refused
  {
    PatchedRow(db.payments[id], p);
    PairAsItWouldBe(db.payments[id], p);
    FaultyIsRefused(db, id, p, seen);
  }

  // ---- a Payment Term ----

  /** A fixed Term has an amount, a percentage Term a rate and a basis. */
  predicate CalculationGood(calcType: Value, amount: Value, rated: bool, basis: Value) {
    || (Says(calcType, "fixed") && !IsBlank(amount))
    || (Says(calcType, "percentage") && rated && !IsBlank(basis))
  }

  predicate TermGood(x: TermInputs) {
    && x.dealId != "" && CalculationGood(x.calcType, x.fixedAmount, x.ratePct != Nothing, x.calcBasis)
    && SaysOne(x.direction, {"receivable", "payable", "internal"}) && SaysOne(x.currency, {"ILS", "USD", "EUR"})
  }

  /** A rate is given in points and kept as a fraction. */
  ghost predicate RateKept(kept: Value, given: Value) {
    if given == Nothing then kept == Nothing else exists points :: IsNumber(given, points) && kept == Number(points / 100.0)
  }

  predicate NoNumber(v: Value) { v != Nothing && !v.Number? && !(v.Text? && v.reading.Some?) }

  /** An optional column, left unset by a blank. */
  predicate Optionally(v: Value, given: Value) { v == if IsBlank(given) then Nothing else given }

  /** The name without the blanks around it, or the standing one when there is no more to it. */
  predicate Named(v: Value, given: Value) {
    var name := if given.Text? then Strip(given.s) else "";
    v == Text(if name == "" then "Payment Term" else name, None)
  }

  ghost predicate TermIsGiven(t: TermRow, x: TermInputs) {
    && t.deals == [x.dealId] && Named(t.name, x.name) && t.calcCode == Nothing && t.calcType == x.calcType
    && t.basisCode == Nothing && Optionally(t.basis, x.calcBasis) && t.fixedAmount == x.fixedAmount
    && RateKept(t.ratePct, x.ratePct) && t.direction == x.direction && t.currency == x.currency && t.vatRule == x.vatRule
    && t.triggerCode == Nothing && t.trigger == x.triggerType && Optionally(t.triggerDate, x.triggerDate)
    && t.triggerDelay == x.triggerDelayDays && t.triggerEvent == Nothing && t.cadence == x.cadence
    && Optionally(t.startDate, x.startDate) && Optionally(t.endDate, x.endDate) && Optionally(t.notes, x.notes)
  }

  lemma OneWord(v: Value, word: string)
    ensures OneOf(v, [word]) <==> Says(v, word)
  {
    assert forall s: string :: s in [word] <==> s == word;
  }

  lemma TwoWords(v: Value)
    ensures OneOf(v, ["fixed", "percentage"]) <==> Says(v, "fixed") || Says(v, "percentage")
    ensures !(Says(v, "fixed") && Says(v, "percentage"))
  {
    assert |"fixed"| != |"percentage"|;
  }

  lemma CalculationIsGood(calcType: Value, amount: Value, rate: Value, basis: Value)
    ensures OneOf(calcType, ["fixed", "percentage"]) && CalculationGiven(calcType, amount, rate, basis)
       <==> CalculationGood(calcType, amount, rate != Nothing, basis)
  {
    OneWord(calcType, "fixed");
    OneWord(calcType, "percentage");
    TwoWords(calcType);
    BlankIsFalse(amount);
    BlankIsFalse(basis);
  }

  lemma TermValuesExactly(x: TermInputs)
    ensures TermFault(x) == None <==> TermGood(x)
  {
    CalculationIsGood(x.calcType, x.fixedAmount, x.ratePct, x.calcBasis);
  }

  lemma RateStored(v: Value)
    requires v != Nothing
    ensures StoredRate(v) == None <==> NoNumber(v)
    ensures StoredRate(v).Some? ==> RateKept(StoredRate(v).value, v)
  {
    if NumberOf(v).Some? { assert IsNumber(v, NumberOf(v).value); }
  }

  lemma NewTermIsGiven(x: TermInputs, rate: Value)
    requires RateKept(rate, x.ratePct)
    ensures TermIsGiven(NewTerm(x, rate), x)
  {
    BlankIsFalse(x.calcBasis);
    BlankIsFalse(x.triggerDate);
    BlankIsFalse(x.startDate);
    BlankIsFalse(x.endDate);
    BlankIsFalse(x.notes);
  }

  /** A Payment Term is written as it was given, its rate as a fraction, exactly when it has what its calculation type
      needs; a rate that is no number raises. */
  lemma NewTermExactly(db: Db, id: Id, x: TermInputs, o: AddOutcome)
    ensures var (db1, reply) := CreateTerm(db, id, x, o);
      if !TermGood(x) then db1 == db && reply == Refused
      else if NoNumber(x.ratePct) then db1 == db && reply == Raised
      else Reported(reply, o)
           && (if o == Created || o == CreatedWithoutId || o == UnknownWritten
               then id in db1.terms && TermIsGiven(db1.terms[id], x)
                    && db1 == db.(terms := db.terms[id := db1.terms[id]])
               else db1 == db)
  {
    TermValuesExactly(x);
    if x.ratePct == Nothing {
      NewTermIsGiven(x, Nothing);
    } else {
      RateStored(x.ratePct);
      if StoredRate(x.ratePct).Some? { NewTermIsGiven(x, StoredRate(x.ratePct).value); }
    }
  }

  // ---- an update of a Payment Term ----

  ghost predicate TermIsPatched(r: TermRow, t: TermRow, p: TermPatch) {
    && r == t.(name := r.name, calcType := r.calcType, fixedAmount := r.fixedAmount, ratePct := r.ratePct, basis := r.basis,
               trigger := r.trigger, triggerDate := r.triggerDate, triggerDelay := r.triggerDelay, cadence := r.cadence,
               vatRule := r.vatRule, startDate := r.startDate, endDate := r.endDate, notes := r.notes)
    && (if p.name.Some? then Named(r.name, p.name.value) else r.name == t.name)
    && (if p.ratePct.Some? then RateKept(r.ratePct, p.ratePct.value) else r.ratePct == t.ratePct)
    && Updated(r.calcType, p.calcType, t.calcType) && Updated(r.fixedAmount, p.fixedAmount, t.fixedAmount)
    && Updated(r.basis, p.calcBasis, t.basis) && Updated(r.trigger, p.trigger, t.trigger)
    && Updated(r.triggerDate, p.triggerDate, t.triggerDate) && Updated(r.triggerDelay, p.triggerDelay, t.triggerDelay)
    && Updated(r.cadence, p.cadence, t.cadence) && Updated(r.vatRule, p.vatRule, t.vatRule)
    && Updated(r.startDate, p.startDate, t.startDate) && Updated(r.endDate, p.endDate, t.endDate)
    && Updated(r.notes, p.notes, t.notes)
  }

  /** The Term as it would be has what its calculation type needs; a column not given counts by its code column if that
      is filled. */
  predicate StaysGood(t: TermRow, p: TermPatch) {
    CalculationGood(Given(p.calcType, if IsBlank(t.calcCode) then t.calcType else t.calcCode),
                    Given(p.fixedAmount, t.fixedAmount), p.ratePct.Some? || t.ratePct != Nothing,
                    Given(p.calcBasis, if IsBlank(t.basisCode) then t.basis else t.basisCode))
  }

  predicate RateRaises(p: TermPatch) { p.ratePct.Some? && (p.ratePct.value == Nothing || NoNumber(p.ratePct.value)) }

  ghost predicate DatesGood(p: TermPatch) {
    && (p.triggerDate.Some? ==> IsBlank(p.triggerDate.value) || FullDate(p.triggerDate.value))
    && (p.startDate.Some? ==> IsBlank(p.startDate.value) || FullDate(p.startDate.value))
    && (p.endDate.Some? ==> IsBlank(p.endDate.value) || FullDate(p.endDate.value))
  }

  lemma StaysGoodExactly(t: TermRow, p: TermPatch)
    ensures UpdateConsistent(t, p) <==> StaysGood(t, p)
  {
    var calcType := Or(p.calcType, EffectiveType(t));
    OneWord(calcType, "fixed");
    OneWord(calcType, "percentage");
    TwoWords(calcType);
    BlankIsFalse(t.calcCode);
    BlankIsFalse(t.basisCode);
    BlankIsFalse(Or(p.fixedAmount, t.fixedAmount));
    BlankIsFalse(Or(p.calcBasis, EffectiveBasis(t)));
  }

  lemma RateRaisesExactly(p: TermPatch)
    ensures RateConverts(p) <==> !RateRaises(p)
  {
  }

  lemma DatesGoodExactly(p: TermPatch)
    ensures PatchDates(p) <==> DatesGood(p)
  {
    DateGood(Or(p.triggerDate, Nothing));
    DateGood(Or(p.startDate, Nothing));
    DateGood(Or(p.endDate, Nothing));
  }

  lemma PatchedTerm(t: TermRow, p: TermPatch)
    requires RateConverts(p)
    ensures TermIsPatched(PatchTerm(t, p), t, p)
  {
    if p.ratePct.Some? && p.ratePct.value != Nothing { RateStored(p.ratePct.value); }
  }

  /** An update of a standing Term changes what it gives and no more, and is written exactly when the Term as it would be
      has what its calculation type needs and the dates given are dates; a rate that is no number raises. */
  lemma TermUpdateExactly(db: Db, id: Id, p: TermPatch, seen: bool, u: UpdateOutcome)
    requires RecordId(id) && id in db.terms && seen
    requires p != TermPatch(None, None, None, None, None, None, None, None, None, None, None, None, None, false)
    ensures var (db1, reply) := UpdateTerm(db, id, p, seen, u);
      var t := db.terms[id];
      if p.unsupported || !StaysGood(t, p) then db1 == db && reply == Refused
      else if RateRaises(p) then db1 == db && reply == Raised
      else if !DatesGood(p) then db1 == db && reply == Refused
      else reply == (if u.reported then Done else NotDone)
           && (if u.applied
               then id in db1.terms && TermIsPatched(db1.terms[id], t, p) && db1 == db.(terms := db.terms[id := db1.terms[id]])
               else db1 == db)
  {
    StaysGoodExactly(db.terms[id], p);
    RateRaisesExactly(p);
    DatesGoodExactly(p);
    if RateConverts(p) { PatchedTerm(db.terms[id], p); }
  }

  // ---- a Lead linked to a Deal ----

  /** The domains, folded and without blanks, are the same or one of them is missing. */
  predicate SameDomain(a: string, b: string, fold: string -> string) {
    fold(Strip(a)) != "" && fold(Strip(b)) != "" ==> fold(Strip(a)) == fold(Strip(b))
  }

  /** A Lead comes to be linked last, after the Leads linked before, and only to a Deal of its domain; success is reported
      exactly when the link could be read back. */
  lemma LeadLinkedExactly(db: Db, lead: Id, deal: Id, seen: bool, fold: string -> string, u: UpdateOutcome, reread: bool)
    ensures var (db1, reply) := LinkLead(db, lead, deal, seen, fold, u, reread);
      if !(RecordId(lead) && RecordId(deal) && seen && deal in db.deals && lead in db.leads
           && SameDomain(db.deals[deal].domain, db.leads[lead].domain, fold))
      then db1 == db && reply == Refused
      else
        var d := db.deals[deal];
        if lead in d.linkedLeads then db1 == db && reply == AlreadyThere
        else
          && db1 == (if u.applied
                     then db.(deals := db.deals[deal := DealRow(d.domain, d.tenant, d.linkedLeads + [lead])]) else db)
          && reply == (if !u.reported then NotDone else if u.applied && reread then Done else Unverified)
  {
  }

  // ---- a Charge from a Term ----

  /** The Deal, the Term and the Lead if one is named are there; the Term and the Lead are of the Deal; and neither Deal
      nor Lead is of another domain or tenant. */
  predicate TermRecordsGood(db: Db, term: Id, deal: Id, lead: Id, tenant: string) {
    && RecordId(deal) && deal in db.deals && RecordId(term) && term in db.terms && deal in db.terms[term].deals
    && (tenant == "" || db.deals[deal].tenant == "" || db.deals[deal].tenant == tenant)
    && (lead == ""
        || (RecordId(lead) && lead in db.leads && deal in db.leads[lead].deals
            && (db.deals[deal].domain == "" || db.leads[lead].domain == "" || db.deals[deal].domain == db.leads[lead].domain)
            && (tenant == "" || db.leads[lead].tenant == "" || db.leads[lead].tenant == tenant)))
  }

  predicate TypeGood(t: TermRow, basis: Value) { TypeIs(t, "fixed") || (TypeIs(t, "percentage") && basis != Nothing) }

  lemma TypeGoodExactly(t: TermRow, basis: Value)
    ensures OneOf(EffectiveType(t), ["fixed", "percentage"]) && !(OneOf(EffectiveType(t), ["percentage"]) && basis == Nothing)
       <==> TypeGood(t, basis)
  {
    TypeIsEffective(t, "fixed");
    TypeIsEffective(t, "percentage");
    TwoWords(EffectiveType(t));
  }

  lemma RecordsGoodExactly(db: Db, term: Id, deal: Id, lead: Id, tenant: string)
    ensures Materialisable(db, term, deal, lead, tenant) <==> TermRecordsGood(db, term, deal, lead, tenant)
  {
  }

  /** The Term can be billed: its columns give figures, and the values the Charge would have are good. */
  ghost predicate Billable(t: TermRow, basis: Value, f: Calculation) {
    && Costs(t, basis, f) && f.base >= 0 && f.vat >= 0 && f.total > 0
    && (t.direction == Nothing || SaysOne(t.direction, {"receivable", "payable", "internal"}))
    && (t.currency == Nothing || SaysOne(t.currency, {"ILS", "USD", "EUR"}))
    && (t.ratePct == Nothing || NumberAbove(t.ratePct, false)) && (forall r :: IsNumber(t.ratePct, r) ==> r <= 100.0)
    && (IsBlank(t.triggerDate) || FullDate(t.triggerDate))
  }

  lemma CostsNeedVat(t: TermRow, basis: Value, f: Calculation)
    requires Costs(t, basis, f)
    ensures t.vatRule == Nothing || SaysOne(t.vatRule, {"none", "add", "included"})
  {
  }

  lemma DraftWords()
    ensures Chosen(Word("draft"), ChargeStatuses) && Chosen(Word("not_due"), CollectionStates)
    ensures PairGood(Word("none"), Word("not_required"))
  {
  }

  lemma MoneyAbove(cents: int)
    ensures NumberAbove(InMoney(cents), true) <==> cents > 0
    ensures NumberAbove(InMoney(cents), false) <==> cents >= 0
  {
  }

  lemma BillableExactly(deal: Id, term: Id, lead: Id, t: TermRow, basis: Value, f: Calculation)
    requires Costs(t, basis, f)
    ensures ChargeValueFault(ChargeOfTerm(deal, term, lead, t, f)) == None <==> Billable(t, basis, f)
  {
    var x := ChargeOfTerm(deal, term, lead, t, f);
    ChargeValuesExactly(x);
    CostsNeedVat(t, basis, f);
    DraftWords();
    MoneyAbove(f.base);
    MoneyAbove(f.vat);
    MoneyAbove(f.total);
  }

  lemma CostsIffCalculated(t: TermRow, basis: Value) returns (f: Option<Calculation>)
    ensures TermCalculation(t, basis) == f
    ensures forall c :: Costs(t, basis, c) <==> f == Some(c)
  {
    f := TermCalculation(t, basis);
    forall c ensures Costs(t, basis, c) <==> f == Some(c) { TermPricedExactly(t, basis, c); }
  }

  /** Whether a Term is materialised: exactly when its records are there and agree, its type is one that is billed and has
      its basis, its columns give a Charge whose values are good, no Charge of the occurrence was found, and the store took
      the record.  A Term that no figures come of raises; what else is missing is refused. */
  lemma MaterialisedExactly(
    db: Db, id: Id, term: Id, deal: Id, lead: Id, basis: Value, tenant: string, seen: bool, lookup: bool, o: AddOutcome,
    reread: bool)
    requires id !in db.charges
    ensures var (db1, reply) := ChargeFromTerm(db, id, term, deal, lead, basis, tenant, seen, lookup, o, reread);
      if !(seen && TermRecordsGood(db, term, deal, lead, tenant) && TypeGood(db.terms[term], basis))
      then db1 == db && reply == Refused
      else
        var t := db.terms[term];
        if forall f :: !Costs(t, basis, f) then db1 == db && reply == Raised
        else if !lookup then db1 == db && reply == Refused
        else if HasReference(db, ReferenceOf(db, deal, term, lead, t)) then db1 == db && reply == AlreadyThere
        else if forall f :: !Billable(t, basis, f) then db1 == db && reply == Refused
        else db1 != db <==> o == Created || o == CreatedWithoutId || o == UnknownWritten
  {
    RecordsGoodExactly(db, term, deal, lead, tenant);
    if seen && TermRecordsGood(db, term, deal, lead, tenant) {
      var t := db.terms[term];
      TypeGoodExactly(t, basis);
      var f := CostsIffCalculated(t, basis);
      if f.Some? {
        BillableExactly(deal, term, lead, t, basis, f.value);
        WrittenExactly(db, id, ChargeOfTerm(deal, term, lead, t, f.value), ReferenceOf(db, deal, term, lead, t), seen, o);
      }
    }
  }

  lemma WrittenExactly(db: Db, id: Id, x: ChargeInputs, reference: string, seen: bool, o: AddOutcome)
    requires id !in db.charges && seen && ChargeRecordsGood(db, x)
    ensures var (db1, reply) := CreateCharge(db, id, x, reference, seen, o);
      if ChargeValueFault(x) == None then db1 != db <==> Writes(o) else db1 == db && reply == Refused
  {
    if ChargeValueFault(x) == None && Writes(o) { assert id in CreateCharge(db, id, x, reference, seen, o).0.charges; }
  }
}
