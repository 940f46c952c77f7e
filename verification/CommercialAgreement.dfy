/** What the writers of the commercial store keep true across its tables, over every run. */
module CommercialAgreement {
  import opened Prelude
  import opened StoreOutcomes
  import opened PaymentMath
  import opened Vocabulary
  import opened CompletionEngine
  import opened CompletionAnswers
  import opened CommercialContracts
  import opened CommercialChecks
  import opened ChargeReference
  import opened CommercialTables

  // ---- what agrees ----

  /** A Term has an amount or a rate and basis, as its calculation type asks. */
  predicate TermSound(t: TermRow) { CalculationGiven(EffectiveType(t), t.fixedAmount, t.ratePct, EffectiveBasis(t)) }

  /** Whether no update the writer accepts can spoil a sound Term: not when a code column says the Term is fixed, nor
      when it says percentage while the basis stands in the old column only.  For there the update is checked against the
      type it gives, and the code column goes on overruling that type. */
  predicate Protected(t: TermRow) {
    !OneOf(t.calcCode, ["fixed"]) && !(OneOf(t.calcCode, ["percentage"]) && !Truthy(t.basisCode))
  }

  /** A Charge belongs to one Deal, its Term if any to that Deal too, and its document pair agrees. */
  predicate ChargeAgrees(c: ChargeRow, terms: map<Id, TermRow>) {
    && |c.deals| == 1
    && (forall i :: 0 <= i < |c.terms| ==> c.terms[i] in terms && c.deals[0] in terms[c.terms[i]].deals)
    && DocumentPair(c.requirement, c.documentStatus)
    && ValidNumber(c.amount, true)
  }

  /** A Payment of a Charge is in its Deal, its direction and its currency. */
  predicate PaymentAgrees(p: PaymentRow, charges: map<Id, ChargeRow>) {
    && (forall i :: 0 <= i < |p.charges| ==>
          p.charges[i] in charges
          && p.deals == charges[p.charges[i]].deals
          && p.direction == charges[p.charges[i]].direction
          && p.currency == charges[p.charges[i]].currency)
    && DocumentPair(p.requirement, p.documentStatus)
  }

  ghost predicate DealsAgree(db: Db) { forall id :: id in db.deals ==> NoRepeats(db.deals[id].linkedLeads) }
  ghost predicate TermsAgree(db: Db) { forall id :: id in db.terms && Protected(db.terms[id]) ==> TermSound(db.terms[id]) }
  ghost predicate ChargesAgree(db: Db) { forall id :: id in db.charges ==> ChargeAgrees(db.charges[id], db.terms) }
  ghost predicate PaymentsAgree(db: Db) { forall id :: id in db.payments ==> PaymentAgrees(db.payments[id], db.charges) }

  ghost predicate Agrees(db: Db) { DealsAgree(db) && TermsAgree(db) && ChargesAgree(db) && PaymentsAgree(db) }

  // ---- one writer at a time ----

  lemma LinkLeadKeeps(db: Db, lead: Id, deal: Id, seen: bool, fold: string -> string, u: UpdateOutcome, reread: bool)
    requires Agrees(db)
    ensures Agrees(LinkLead(db, lead, deal, seen, fold, u, reread).0)
  {
  }

  lemma NewTermIsSound(x: TermInputs, rate: Value)
    requires TermFault(x) == None && (x.ratePct == Nothing <==> rate == Nothing)
    ensures TermSound(NewTerm(x, rate)) && Protected(NewTerm(x, rate))
  {
  }

  lemma ChargesKeepWithTerm(db: Db, id: Id, t: TermRow)
    requires ChargesAgree(db) && (id in db.terms ==> t.deals == db.terms[id].deals)
    ensures ChargesAgree(db.(terms := db.terms[id := t]))
  {
    forall c | c in db.charges ensures ChargeAgrees(db.charges[c], db.terms[id := t]) {
      assert ChargeAgrees(db.charges[c], db.terms);
    }
  }

  lemma CreateTermKeeps(db: Db, id: Id, x: TermInputs, o: AddOutcome)
    requires Agrees(db) && id !in db.terms
    ensures Agrees(CreateTerm(db, id, x, o).0)
  {
    var db1 := CreateTerm(db, id, x, o).0;
    if db1 != db {
      NewTermIsSound(x, db1.terms[id].ratePct);
      ChargesKeepWithTerm(db, id, db1.terms[id]);
    }
  }

  lemma PatchKeepsTerm(t: TermRow, p: TermPatch)
    requires UpdateAccepted(t, p)
    ensures Protected(PatchTerm(t, p)) <==> Protected(t)
    ensures Protected(t) && TermSound(t) ==> TermSound(PatchTerm(t, p))
    ensures PatchTerm(t, p).deals == t.deals
  {
  }

  lemma UpdateTermKeeps(db: Db, id: Id, p: TermPatch, seen: bool, u: UpdateOutcome)
    requires Agrees(db)
    ensures Agrees(UpdateTerm(db, id, p, seen, u).0)
  {
    var db1 := UpdateTerm(db, id, p, seen, u).0;
    if db1 != db {
      PatchKeepsTerm(db.terms[id], p);
      ChargesKeepWithTerm(db, id, PatchTerm(db.terms[id], p));
    }
  }

  lemma PaymentsKeepWithMoreCharges(db: Db, id: Id, c: ChargeRow)
    requires PaymentsAgree(db) && id !in db.charges
    ensures PaymentsAgree(db.(charges := db.charges[id := c]))
  {
    var charges := db.charges[id := c];
    forall p | p in db.payments ensures PaymentAgrees(db.payments[p], charges) {
      assert PaymentAgrees(db.payments[p], db.charges);
    }
  }

  lemma NewChargeAgrees(db: Db, x: ChargeInputs, r: string)
    requires ChargeValueFault(x) == None
    requires x.billingTermId != "" ==> x.billingTermId in db.terms && x.dealId in db.terms[x.billingTermId].deals
    ensures ChargeAgrees(NewCharge(x, r), db.terms)
  {
  }

  lemma CreateChargeKeeps(db: Db, id: Id, x: ChargeInputs, r: string, seen: bool, o: AddOutcome)
    requires Agrees(db) && id !in db.charges
    ensures Agrees(CreateCharge(db, id, x, r, seen, o).0)
  {
    var db1 := CreateCharge(db, id, x, r, seen, o).0;
    if db1 != db {
      NewChargeAgrees(db, x, r);
      PaymentsKeepWithMoreCharges(db, id, NewCharge(x, r));
    }
  }

  lemma ChargeFromTermKeeps(
    db: Db, id: Id, term: Id, deal: Id, lead: Id, basis: Value, tenant: string, seen: bool, lookup: bool, o: AddOutcome,
    reread: bool)
    requires Agrees(db) && id !in db.charges
    ensures Agrees(ChargeFromTerm(db, id, term, deal, lead, basis, tenant, seen, lookup, o, reread).0)
  {
    var db1 := ChargeFromTerm(db, id, term, deal, lead, basis, tenant, seen, lookup, o, reread).0;
    if db1 != db {
      var t := db.terms[term];
      CreateChargeKeeps(db, id, ChargeOfTerm(deal, term, lead, t, TermCalculation(t, basis).value),
                        ReferenceOf(db, deal, term, lead, t), seen, o);
    }
  }

  lemma CreatePaymentKeeps(db: Db, id: Id, x: PaymentInputs, seen: bool, o: AddOutcome)
    requires Agrees(db) && id !in db.payments
    ensures Agrees(CreatePayment(db, id, x, seen, o).0)
  {
  }

  lemma CreateLegacyPaymentKeeps(db: Db, id: Id, deal: Id, term: Id, amount: Value, reference: Value, notes: Value, o: AddOutcome)
    requires Agrees(db) && id !in db.payments
    ensures Agrees(CreateLegacyPayment(db, id, deal, term, amount, reference, notes, o).0)
  {
  }

  lemma PatchKeepsPayment(row: PaymentRow, p: PaymentPatch, charges: map<Id, ChargeRow>)
    requires PaymentAgrees(row, charges) && PairFault(row, p) == None
    ensures PaymentAgrees(PatchPayment(row, p), charges)
  {
  }

  lemma UpdatePaymentKeeps(db: Db, id: Id, p: PaymentPatch, seen: bool, u: UpdateOutcome)
    requires Agrees(db)
    ensures Agrees(UpdatePayment(db, id, p, seen, u).0)
  {
    var db1 := UpdatePayment(db, id, p, seen, u).0;
    if db1 != db { PatchKeepsPayment(db.payments[id], p, db.charges); }
  }
}
