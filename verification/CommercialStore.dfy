/** The commercial writers as they run: read, check, write, one table row at a time. */
module CommercialStores {
  import opened Prelude
  import opened Texts
  import opened StoreOutcomes
  import opened PaymentMath
  import opened DateAnswers
  import opened Vocabulary
  import opened CompletionEngine
  import opened CompletionAnswers
  import opened CommercialContracts
  import opened CommercialChecks
  import opened ChargeReference
  import opened CommercialTables

  class CommercialStore {
    var deals: map<Id, DealRow>
    var leads: map<Id, LeadRow>
    var terms: map<Id, TermRow>
    var charges: map<Id, ChargeRow>
    var payments: map<Id, PaymentRow>
    const contacts: set<Id>
    const organizations: set<Id>
    const refer: MaterialKey -> string

    constructor (contacts: set<Id>, organizations: set<Id>, refer: MaterialKey -> string)
      ensures Snapshot() == Db(map[], map[], map[], map[], map[], contacts, organizations, refer)
    {
      deals, leads, terms, charges, payments := map[], map[], map[], map[], map[];
      this.contacts := contacts;
      this.organizations := organizations;
      this.refer := refer;
    }

    function Snapshot(): (db: Db)
      reads this
    {
      Db(deals, leads, terms, charges, payments, contacts, organizations, refer)
    }

    method LinkLeadToDeal(
      lead: Id, deal: Id, seen: bool, fold: string -> string, u: UpdateOutcome, reread: bool
    ) returns (reply: Reply)
      modifies this
      ensures (Snapshot(), reply) == LinkLead(old(Snapshot()), lead, deal, seen, fold, u, reread)
    {
      if !RecordId(lead) || !RecordId(deal) { return Refused; }
      if !seen || deal !in deals || lead !in leads { return Refused; }
      if !DomainsAgree(deals[deal].domain, leads[lead].domain, fold) { return Refused; }
      var linked := deals[deal].linkedLeads;
      if lead in linked { return AlreadyThere; }
      if u.applied { deals := deals[deal := deals[deal].(linkedLeads := linked + [lead])]; }
      if !u.reported { return NotDone; }
      if !reread || lead !in deals[deal].linkedLeads { return Unverified; }
      return Done;
    }

    method CreatePaymentTerm(id: Id, x: TermInputs, o: AddOutcome) returns (reply: Reply)
      modifies this
      ensures (Snapshot(), reply) == CreateTerm(old(Snapshot()), id, x, o)
    {
      if x.dealId == "" { return Refused; }
      if !OneOf(x.calcType, ["fixed", "percentage"]) { return Refused; }
      if !CalculationGiven(x.calcType, x.fixedAmount, x.ratePct, x.calcBasis) { return Refused; }
      if !Chosen(x.direction, Directions) || !Chosen(x.currency, Currencies) { return Refused; }
      var rate := Nothing;
      if x.ratePct != Nothing {
        var stored := StoredRate(x.ratePct);
        if stored == None { return Raised; }
        rate := stored.value;
      }
      if Writes(o) { terms := terms[id := NewTerm(x, rate)]; }
      return Replied(o);
    }

    method UpdatePaymentTerm(id: Id, p: TermPatch, seen: bool, u: UpdateOutcome) returns (reply: Reply)
      modifies this
      ensures (Snapshot(), reply) == UpdateTerm(old(Snapshot()), id, p, seen, u)
    {
      if !RecordId(id) || p == NoTermPatch || p.unsupported { return Refused; }
      if !seen || id !in terms { return Refused; }
      if !UpdateConsistent(terms[id], p) { return Refused; }
      if !RateConverts(p) { return Raised; }
      if !PatchDates(p) { return Refused; }
      if u.applied { terms := terms[id := PatchTerm(terms[id], p)]; }
      return if u.reported then Done else NotDone;
    }

    method CreateDirectCharge(id: Id, x: ChargeInputs, reference: string, seen: bool, o: AddOutcome) returns (reply: Reply)
      modifies this
      ensures (Snapshot(), reply) == CreateCharge(old(Snapshot()), id, x, reference, seen, o)
    {
      if !RecordId(x.dealId) || !seen || x.dealId !in deals { return Refused; }
      if x.billingTermId != "" {
        if !RecordId(x.billingTermId) || x.billingTermId !in terms { return Refused; }
        if x.dealId !in terms[x.billingTermId].deals { return Refused; }
      }
      if ChargeValueFault(x).Some? { return Refused; }
      if Writes(o) { charges := charges[id := NewCharge(x, reference)]; }
      return Replied(o);
    }

    method CreateChargeFromTerm(
      id: Id, term: Id, deal: Id, lead: Id, basis: Value, tenant: string, seen: bool, lookup: bool, o: AddOutcome, reread: bool
    ) returns (reply: Reply)
      modifies this
      ensures (Snapshot(), reply)
           == ChargeFromTerm(old(Snapshot()), id, term, deal, lead, basis, tenant, seen, lookup, o, reread)
    {
      if !seen || !Materialisable(Snapshot(), term, deal, lead, tenant) { return Refused; }
      var t := terms[term];
      var calcType := EffectiveType(t);
      if !OneOf(calcType, ["fixed", "percentage"]) { return Refused; }
      if OneOf(calcType, ["percentage"]) && basis == Nothing { return Refused; }
      var calculated := TermCalculation(t, basis);
      if calculated == None { return Raised; }
      var reference := ReferenceOf(Snapshot(), deal, term, lead, t);
      if !lookup { return Refused; }
      if HasReference(Snapshot(), reference) { return AlreadyThere; }
      var x := ChargeOfTerm(deal, term, lead, t, calculated.value);
      reply := CreateDirectCharge(id, x, reference, seen, o);
      if reply == Done && (o != Created || !reread || !ReadsBack(Snapshot(), id, x, reference)) { reply := Unverified; }
    }

    method CreateChargePayment(id: Id, x: PaymentInputs, seen: bool, o: AddOutcome) returns (reply: Reply)
      modifies this
      ensures (Snapshot(), reply) == CreatePayment(old(Snapshot()), id, x, seen, o)
    {
      if !RecordId(x.chargeId) || !seen || x.chargeId !in charges { return Refused; }
      var c := charges[x.chargeId];
      if c.deals != [x.dealId] { return Refused; }
      if !Chosen(x.direction, Directions) || x.direction != c.direction { return Refused; }
      if !Chosen(x.currency, Currencies) || x.currency != c.currency { return Refused; }
      if PaymentValueFault(x).Some? { return Refused; }
      if !TermOfCharge(Snapshot(), x, c) { return Refused; }
      if !ReadableOrAbsent(x.contactId, contacts) || !ReadableOrAbsent(x.organizationId, organizations) { return Refused; }
      if Writes(o) { payments := payments[id := NewPayment(x)]; }
      return Replied(o);
    }

    method UpdatePaymentRecord(id: Id, p: PaymentPatch, seen: bool, u: UpdateOutcome) returns (reply: Reply)
      modifies this
      ensures (Snapshot(), reply) == UpdatePayment(old(Snapshot()), id, p, seen, u)
    {
      if !RecordId(id) || p == NoPaymentPatch || p.financial || p.unsupported { return Refused; }
      var row := Blank;
      if id in payments { row := payments[id]; }
      if NeedsRecord(p) && (!seen || id !in payments) { return Refused; }
      if !LinkReadable(p.contact, contacts, seen) || !LinkReadable(p.organization, organizations, seen) { return Refused; }
      if PairFault(row, p).Some? { return Refused; }
      if id !in payments { return NotDone; }
      if u.applied { payments := payments[id := PatchPayment(row, p)]; }
      return if u.reported then Done else NotDone;
    }
  }
}
