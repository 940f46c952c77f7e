/** Deals, Leads, Payment Terms, Charges and Payments as one store, and what each writer does to it. */
module CommercialTables {
  import opened Prelude
  import opened Texts
  import opened StoreOutcomes
  import opened PaymentMath
  import opened DateAnswers
  import opened Vocabulary
  import opened CompletionEngine
  import opened CompletionAnswers
  import opened CommercialContracts
  import opened CommercialChecks
  import opened ChargeReference

  datatype DealRow = DealRow(domain: string, tenant: string, linkedLeads: seq<Id>)
  datatype LeadRow = LeadRow(domain: string, tenant: string, deals: seq<Id>)

  /** A Term has each of its select columns twice: the old one, which the writers fill, and a code column, which they
      only read, and prefer. */
  datatype TermRow = TermRow(
    deals: seq<Id>, name: Value, calcCode: Value, calcType: Value, basisCode: Value, basis: Value, fixedAmount: Value,
    ratePct: Value, direction: Value, currency: Value, vatRule: Value, triggerCode: Value, trigger: Value,
    triggerDate: Value, triggerDelay: Value, triggerEvent: Value, cadence: Value, startDate: Value, endDate: Value,
    notes: Value)

  /** A Charge's reference is a text, blank when there is none: one someone gave, or that of a materialisation. */
  datatype ChargeRow = ChargeRow(
    deals: seq<Id>, terms: seq<Id>, leads: seq<Id>, reference: string, direction: Value, amount: Value, currency: Value,
    status: Value, collectionState: Value, vatRule: Value, requirement: Value, documentStatus: Value,
    originalDueDate: Value, currentExpectedDate: Value, baseAmount: Value, ratePct: Value, quantity: Value, unitRate: Value,
    vatAmount: Value, promisedDate: Value, promisedAmount: Value, notes: Value)

  datatype PaymentRow = PaymentRow(
    charges: seq<Id>, deals: seq<Id>, terms: seq<Id>, direction: Value, amount: Value, currency: Value, paidAt: Value,
    status: Value, requirement: Value, documentStatus: Value, reference: Value, means: Value, contacts: seq<Id>,
    organizations: seq<Id>, notes: Value)

  /** `refer` is the way the key of a materialisation is written as a reference: `ReferenceText` of it. */
  datatype Db = Db(
    deals: map<Id, DealRow>, leads: map<Id, LeadRow>, terms: map<Id, TermRow>, charges: map<Id, ChargeRow>,
    payments: map<Id, PaymentRow>, contacts: set<Id>, organizations: set<Id>,
    refer: MaterialKey -> string)

  datatype Reply = Done | Refused | NotDone | Unverified | Raised | AlreadyThere

  function Links(id: Id): seq<Id> { if id == "" then [] else [id] }

  function Replied(o: AddOutcome): Reply { if o == Created || o == CreatedWithoutId then Done else NotDone }

  // ---- Deals and Leads ----

  /** `id` is what the store would call the new record. */
  function CreateDeal(db: Db, id: Id, domain: string, tenant: string, o: AddOutcome): (Db, Reply) {
    (if Writes(o) then db.(deals := db.deals[id := DealRow(domain, tenant, [])]) else db, Replied(o))
  }

  /** Two domains go together unless both are there and differ; `fold` is the case folding of the source. */
  predicate DomainsAgree(a: string, b: string, fold: string -> string) {
    fold(Strip(a)) == "" || fold(Strip(b)) == "" || fold(Strip(a)) == fold(Strip(b))
  }

  function LinkLead(db: Db, lead: Id, deal: Id, seen: bool, fold: string -> string, u: UpdateOutcome, reread: bool): (Db, Reply) {
    if !RecordId(lead) || !RecordId(deal) || !seen || deal !in db.deals || lead !in db.leads then (db, Refused)
    else if !DomainsAgree(db.deals[deal].domain, db.leads[lead].domain, fold) then (db, Refused)
    else if lead in db.deals[deal].linkedLeads then (db, AlreadyThere)
    else
      var linked := db.deals[deal].(linkedLeads := db.deals[deal].linkedLeads + [lead]);
      var after := if u.applied then db.(deals := db.deals[deal := linked]) else db;
      (after,
       if !u.reported then NotDone
       else if reread && lead in after.deals[deal].linkedLeads then Done
       else Unverified)
  }

  // ---- Payment Terms ----

  /** A rate as the store keeps it; None when it is no number, which raises. */
  function StoredRate(v: Value): Option<Value> {
    match NumberOf(v)
    case Some(points) => Some(Number(StorePercentFromPoints(points)))
    case None => None
  }

  /** A name without blanks around it, or the standing one. */
  function TermName(v: Value): Value { if Strip(TextOf(v)) == "" then Word("Payment Term") else Word(Strip(TextOf(v))) }

  /** An optional column is left unset for a value that counts as false. */
  function IfTrue(v: Value): Value { if Truthy(v) then v else Nothing }

  function NewTerm(x: TermInputs, rate: Value): TermRow {
    TermRow([x.dealId], TermName(x.name), Nothing, x.calcType, Nothing, IfTrue(x.calcBasis), x.fixedAmount, rate, x.direction,
            x.currency, x.vatRule, Nothing, x.triggerType, IfTrue(x.triggerDate), x.triggerDelayDays, Nothing, x.cadence,
            IfTrue(x.startDate), IfTrue(x.endDate), IfTrue(x.notes))
  }

  function CreateTerm(db: Db, id: Id, x: TermInputs, o: AddOutcome): (Db, Reply) {
    if TermFault(x).Some? then (db, Refused)
    else if x.ratePct != Nothing && StoredRate(x.ratePct) == None then (db, Raised)
    else
      var rate := if x.ratePct == Nothing then Nothing else StoredRate(x.ratePct).value;
      (if Writes(o) then db.(terms := db.terms[id := NewTerm(x, rate)]) else db, Replied(o))
  }

  function OrElse(v: Value, w: Value): Value { if Truthy(v) then v else w }

  function EffectiveType(t: TermRow): Value { OrElse(t.calcCode, t.calcType) }

  function EffectiveBasis(t: TermRow): Value { OrElse(t.basisCode, t.basis) }

  /** The fields of an update that are given, each with its value, which may be Nothing. */
  datatype TermPatch = TermPatch(
    name: Option<Value>, calcType: Option<Value>, fixedAmount: Option<Value>, ratePct: Option<Value>,
    calcBasis: Option<Value>, trigger: Option<Value>, triggerDate: Option<Value>, triggerDelay: Option<Value>,
    cadence: Option<Value>, vatRule: Option<Value>, startDate: Option<Value>, endDate: Option<Value>,
    notes: Option<Value>, unsupported: bool)

  const NoTermPatch := TermPatch(None, None, None, None, None, None, None, None, None, None, None, None, None, false)

  function Or(given: Option<Value>, current: Value): Value {
    match given
    case Some(v) => v
    case None => current
  }

  /** The consistency a partial update is held to: the record as it would be, for the columns it reads. */
  predicate UpdateConsistent(t: TermRow, p: TermPatch) {
    var calcType := Or(p.calcType, EffectiveType(t));
    && OneOf(calcType, ["fixed", "percentage"])
    && (OneOf(calcType, ["fixed"]) ==> Truthy(Or(p.fixedAmount, t.fixedAmount)))
    && (OneOf(calcType, ["percentage"]) ==>
          (p.ratePct.Some? || t.ratePct != Nothing) && Truthy(Or(p.calcBasis, EffectiveBasis(t))))
  }

  predicate PatchDates(p: TermPatch) {
    && ValidDateOrAbsent(Or(p.triggerDate, Nothing))
    && ValidDateOrAbsent(Or(p.startDate, Nothing))
    && ValidDateOrAbsent(Or(p.endDate, Nothing))
  }

  predicate RateConverts(p: TermPatch) { p.ratePct.Some? ==> StoredRate(p.ratePct.value).Some? }

  function PatchTerm(t: TermRow, p: TermPatch): TermRow
    requires RateConverts(p)
  {
    t.(name := if p.name.Some? then TermName(p.name.value) else t.name, calcType := Or(p.calcType, t.calcType),
       fixedAmount := Or(p.fixedAmount, t.fixedAmount),
       ratePct := if p.ratePct.Some? then StoredRate(p.ratePct.value).value else t.ratePct,
       basis := Or(p.calcBasis, t.basis), trigger := Or(p.trigger, t.trigger), triggerDate := Or(p.triggerDate, t.triggerDate),
       triggerDelay := Or(p.triggerDelay, t.triggerDelay), cadence := Or(p.cadence, t.cadence), vatRule := Or(p.vatRule, t.vatRule),
       startDate := Or(p.startDate, t.startDate), endDate := Or(p.endDate, t.endDate), notes := Or(p.notes, t.notes))
  }

  /** An update is written when the record as it would be is consistent, its rate converts and its dates are dates. */
  predicate UpdateAccepted(t: TermRow, p: TermPatch) { UpdateConsistent(t, p) && RateConverts(p) && PatchDates(p) }

  function UpdateTerm(db: Db, id: Id, p: TermPatch, seen: bool, u: UpdateOutcome): (Db, Reply) {
    if !RecordId(id) || p == NoTermPatch || p.unsupported || !seen || id !in db.terms then (db, Refused)
    else
      var t := db.terms[id];
      if !UpdateConsistent(t, p) then (db, Refused)
      else if !RateConverts(p) then (db, Raised)
      else if !PatchDates(p) then (db, Refused)
      else (if u.applied then db.(terms := db.terms[id := PatchTerm(t, p)]) else db, if u.reported then Done else NotDone)
  }

  // ---- Charges ----

  /** An optional column is left unset for an empty text. */
  function IfFilled(v: Value): Value { if v.Text? && v.s == "" then Nothing else v }

  function NewCharge(x: ChargeInputs, reference: string): ChargeRow {
    ChargeRow([x.dealId], Links(x.billingTermId), Links(x.leadId), reference, x.direction, x.amount, x.currency, x.status,
              x.collectionState, x.vatRule, x.requirement, x.documentStatus, IfFilled(x.originalDueDate),
              IfFilled(x.currentExpectedDate), IfFilled(x.baseAmount), IfFilled(x.ratePct), IfFilled(x.quantity),
              IfFilled(x.unitRate), IfFilled(x.vatAmount), IfFilled(x.promisedDate), IfFilled(x.promisedAmount),
              IfFilled(x.notes))
  }

  function CreateCharge(db: Db, id: Id, x: ChargeInputs, reference: string, seen: bool, o: AddOutcome): (Db, Reply) {
    if !seen || !RecordId(x.dealId) || x.dealId !in db.deals then (db, Refused)
    else if x.billingTermId != ""
            && (!RecordId(x.billingTermId) || x.billingTermId !in db.terms || x.dealId !in db.terms[x.billingTermId].deals)
    then (db, Refused)
    else if ChargeValueFault(x).Some? then (db, Refused)
    else (if Writes(o) then db.(charges := db.charges[id := NewCharge(x, reference)]) else db, Replied(o))
  }

  function VatRuleOf(v: Value): VatRule {
    if OneOf(v, ["none"]) then VatNone else if OneOf(v, ["add"]) then VatAdd else if OneOf(v, ["included"]) then VatIncluded
    else UnknownVat
  }

  /** A number or, when blank, zero; None when it is no number, which raises. */
  function FloatOrZero(v: Value): Option<real> { if !Truthy(v) then Some(0.0) else NumberOf(v) }

  function RatePoints(t: TermRow): real {
    match FloatOrZero(t.ratePct)
    case Some(r) => PercentPointsFromStore(Some(r))
    case None => 0.0
  }

  function TermVat(t: TermRow): Value { if t.vatRule == Nothing then Word("none") else t.vatRule }

  /** What a Term amounts to on a basis; None when it raises. */
  function TermCalculation(t: TermRow, basis: Value): Option<Calculation> {
    if OneOf(EffectiveType(t), ["fixed"]) then
      match FloatOrZero(t.fixedAmount)
      case Some(r) => CalculatePayment(Fixed, Some(r), None, None, VatRuleOf(TermVat(t)))
      case None => None
    else
      match FloatOrZero(basis)
      case Some(b) => CalculatePayment(Percentage, None, Some(RatePoints(t)), Some(b), VatRuleOf(TermVat(t)))
      case None => None
  }

  function InMoney(cents: int): Value { Number(cents as real / 100.0) }

  /** A column as the reference writes it: blank when there is no value. */
  function ScalarOf(v: Value): Scalar { if v.Number? then NumberScalar(v.r) else TextScalar(TextOf(v)) }

  function OccurrenceOf(t: TermRow): Occurrence {
    Occurrence(ScalarOf(OrElse(t.triggerCode, t.trigger)), ScalarOf(t.triggerDate), ScalarOf(t.triggerDelay), ScalarOf(t.triggerEvent))
  }

  function KeyOf(deal: Id, term: Id, lead: Id, t: TermRow): MaterialKey { MaterialKey(deal, term, lead, OccurrenceOf(t)) }

  function ReferenceOf(db: Db, deal: Id, term: Id, lead: Id, t: TermRow): string {
    db.refer(KeyOf(deal, term, lead, t))
  }

  /** The Charge a Term stands for. */
  function ChargeOfTerm(deal: Id, term: Id, lead: Id, t: TermRow, calculated: Calculation): ChargeInputs {
    ChargeInputs(
      deal, if t.direction == Nothing then Word("receivable") else t.direction, InMoney(calculated.total),
      if t.currency == Nothing then Word("ILS") else t.currency, Word("draft"), Word("not_due"), TermVat(t), Word("none"),
      Word("not_required"), term, lead, Nothing, t.triggerDate, Nothing, InMoney(calculated.base), t.ratePct, Nothing, Nothing,
      InMoney(calculated.vat), Nothing, Nothing, t.notes)
  }

  predicate HasReference(db: Db, r: string) { exists id :: id in db.charges && db.charges[id].reference == r }

  predicate TenantAllows(tenant: string, wanted: string) { wanted == "" || tenant == "" || tenant == wanted }

  /** The record-dependent conditions for materialising a Charge. */
  predicate Materialisable(db: Db, term: Id, deal: Id, lead: Id, tenant: string) {
    && RecordId(deal) && deal in db.deals
    && RecordId(term) && term in db.terms && deal in db.terms[term].deals
    && TenantAllows(db.deals[deal].tenant, tenant)
    && (lead != "" ==>
          && RecordId(lead) && lead in db.leads && deal in db.leads[lead].deals
          && (db.deals[deal].domain == "" || db.leads[lead].domain == "" || db.deals[deal].domain == db.leads[lead].domain)
          && TenantAllows(db.leads[lead].tenant, tenant))
  }

  /** What the read-back looks for in the record just created. */
  predicate ReadsBack(db: Db, id: Id, x: ChargeInputs, reference: string) {
    && id in db.charges
    && x.dealId in db.charges[id].deals && x.billingTermId in db.charges[id].terms
    && (x.leadId != "" ==> x.leadId in db.charges[id].leads)
    && db.charges[id].reference == reference && db.charges[id].amount == x.amount
  }

  /** The answer after a creation that was reported as done: verified by reading the record back, for which an id is
      needed; `reread` says whether the read succeeds. */
  function VerifiedReply(db: Db, id: Id, x: ChargeInputs, reference: string, o: AddOutcome, reread: bool): Reply {
    if o == Created && reread && ReadsBack(db, id, x, reference) then Done else Unverified
  }

  function ChargeFromTerm(
    db: Db, id: Id, term: Id, deal: Id, lead: Id, basis: Value, tenant: string, seen: bool, lookup: bool, o: AddOutcome,
    reread: bool
  ): (Db, Reply) {
    if !seen || !Materialisable(db, term, deal, lead, tenant) then (db, Refused)
    else
      var t := db.terms[term];
      if !OneOf(EffectiveType(t), ["fixed", "percentage"]) || (OneOf(EffectiveType(t), ["percentage"]) && basis == Nothing)
      then (db, Refused)
      else
        match TermCalculation(t, basis)
        case None => (db, Raised)
        case Some(calculated) =>
          var x, reference := ChargeOfTerm(deal, term, lead, t, calculated), ReferenceOf(db, deal, term, lead, t);
          if !lookup then (db, Refused)
          else if HasReference(db, reference) then (db, AlreadyThere)
          else
            var (db1, reply) := CreateCharge(db, id, x, reference, seen, o);
            (db1, if reply == Done then VerifiedReply(db1, id, x, reference, o, reread) else reply)
  }

  // ---- Payments ----

  predicate ReadableOrAbsent(id: Id, table: set<Id>) { id != "" ==> RecordId(id) && id in table }

  function NewPayment(x: PaymentInputs): PaymentRow {
    PaymentRow([x.chargeId], [x.dealId], Links(x.paymentTermId), x.direction, x.amount, x.currency, x.paidAt, x.status,
               x.requirement, x.documentStatus, IfFilled(x.reference), IfFilled(x.means), Links(x.contactId),
               Links(x.organizationId), IfFilled(x.notes))
  }

  /** The Payment agrees with its Charge. */
  predicate MatchesCharge(x: PaymentInputs, c: ChargeRow) {
    && c.deals == [x.dealId]
    && Chosen(x.direction, Directions) && x.direction == c.direction
    && Chosen(x.currency, Currencies) && x.currency == c.currency
  }

  predicate TermOfCharge(db: Db, x: PaymentInputs, c: ChargeRow) {
    x.paymentTermId != "" ==>
      && RecordId(x.paymentTermId) && x.paymentTermId in db.terms
      && x.paymentTermId in c.terms && x.dealId in db.terms[x.paymentTermId].deals
  }

  function CreatePayment(db: Db, id: Id, x: PaymentInputs, seen: bool, o: AddOutcome): (Db, Reply) {
    if !seen || !RecordId(x.chargeId) || x.chargeId !in db.charges then (db, Refused)
    else if !MatchesCharge(x, db.charges[x.chargeId]) || PaymentValueFault(x).Some? then (db, Refused)
    else if !TermOfCharge(db, x, db.charges[x.chargeId]) then (db, Refused)
    else if !ReadableOrAbsent(x.contactId, db.contacts) || !ReadableOrAbsent(x.organizationId, db.organizations) then (db, Refused)
    else (if Writes(o) then db.(payments := db.payments[id := NewPayment(x)]) else db, Replied(o))
  }

  /** The older Payment writer: no Charge, no document columns. */
  function CreateLegacyPayment(
    db: Db, id: Id, deal: Id, term: Id, amount: Value, reference: Value, notes: Value, o: AddOutcome
  ): (Db, Reply) {
    if !amount.Number? || amount.r <= 0.0 then (db, Refused)
    else
      var row := PaymentRow([], Links(deal), Links(term), Nothing, amount, Nothing, Nothing, Word("pending"), Nothing, Nothing,
                            IfTrue(reference), Nothing, [], [], IfTrue(notes));
      (if Writes(o) then db.(payments := db.payments[id := row]) else db, Replied(o))
  }

  /** `financial` and `unsupported` say whether the update names any such field; a counterparty may be cleared. */
  datatype PaymentPatch = PaymentPatch(
    reference: Option<Value>, means: Option<Value>, notes: Option<Value>, contact: Option<Id>, organization: Option<Id>,
    requirement: Option<Value>, documentStatus: Option<Value>, financial: bool, unsupported: bool)

  const NoPaymentPatch := PaymentPatch(None, None, None, None, None, None, None, false, false)

  predicate LinkReadable(link: Option<Id>, table: set<Id>, seen: bool) {
    link.Some? && link.value != "" ==> seen && ReadableOrAbsent(link.value, table)
  }

  function PatchPayment(row: PaymentRow, p: PaymentPatch): PaymentRow {
    row.(reference := Or(p.reference, row.reference), means := Or(p.means, row.means), notes := Or(p.notes, row.notes),
         contacts := if p.contact.Some? then Links(p.contact.value) else row.contacts,
         organizations := if p.organization.Some? then Links(p.organization.value) else row.organizations,
         requirement := Or(p.requirement, row.requirement), documentStatus := Or(p.documentStatus, row.documentStatus))
  }

  /** The record is read only when one half of the document pair is given without the other. */
  predicate NeedsRecord(p: PaymentPatch) { p.requirement.Some? != p.documentStatus.Some? }

  /** An update that touches the documents is held to the pair as it would be. */
  function PairFault(row: PaymentRow, p: PaymentPatch): Option<Fault> {
    if p.requirement == None && p.documentStatus == None then None
    else DocumentFault(Or(p.requirement, row.requirement), Or(p.documentStatus, row.documentStatus))
  }

  const Blank := PaymentRow([], [], [], Nothing, Nothing, Nothing, Nothing, Nothing, Nothing, Nothing, Nothing, Nothing, [], [],
                            Nothing)

  function UpdatePayment(db: Db, id: Id, p: PaymentPatch, seen: bool, u: UpdateOutcome): (Db, Reply) {
    var there := id in db.payments;
    var row := if there then db.payments[id] else Blank;
    if !RecordId(id) || p == NoPaymentPatch || p.financial || p.unsupported then (db, Refused)
    else if NeedsRecord(p) && !(seen && there) then (db, Refused)
    else if !LinkReadable(p.contact, db.contacts, seen) || !LinkReadable(p.organization, db.organizations, seen) then (db, Refused)
    else if PairFault(row, p).Some? then (db, Refused)
    else if !there then (db, NotDone)
    else
      (if u.applied then db.(payments := db.payments[id := PatchPayment(row, p)]) else db, if u.reported then Done else NotDone)
  }
}
