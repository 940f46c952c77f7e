/** Runs of the commercial writers in any order, with any outcomes. */
module CommercialRuns {
  import opened Prelude
  import opened StoreOutcomes
  import opened PaymentMath
  import opened DateAnswers
  import opened Vocabulary
  import opened CompletionEngine
  import opened CompletionAnswers
  import opened CommercialContracts
  import opened CommercialChecks
  import opened ChargeReference
  import opened CommercialTables
  import opened CommercialAgreement
  import opened TermPricing

  /** One call of a writer, with what its reads and writes meet.  `id` is what the store would call a new record, `given`
      the text a Charge made directly carries as its reference, blank for none. */
  datatype Action =
    | NewDeal(id: Id, domain: string, tenant: string, outcome: AddOutcome)
    | LinkLeadToDeal(lead: Id, deal: Id, seen: bool, fold: string -> string, update: UpdateOutcome, reread: bool)
    | NewPaymentTerm(id: Id, term: TermInputs, outcome: AddOutcome)
    | UpdatePaymentTerm(id: Id, termPatch: TermPatch, seen: bool, update: UpdateOutcome)
    | NewDirectCharge(id: Id, charge: ChargeInputs, given: string, seen: bool, outcome: AddOutcome)
    | NewChargeFromTerm(id: Id, termId: Id, deal: Id, lead: Id, basis: Value, tenant: string, seen: bool, lookup: bool,
                        outcome: AddOutcome, reread: bool)
    | NewChargePayment(id: Id, payment: PaymentInputs, seen: bool, outcome: AddOutcome)
    | NewLegacyPayment(id: Id, deal: Id, termId: Id, amount: Value, reference: Value, notes: Value, outcome: AddOutcome)
    | UpdatePaymentRecord(id: Id, patch: PaymentPatch, seen: bool, update: UpdateOutcome)

  function Step(db: Db, a: Action): (Db, Reply) {
    match a
    case NewDeal(id, domain, tenant, o) => CreateDeal(db, id, domain, tenant, o)
    case LinkLeadToDeal(lead, deal, seen, fold, u, reread) => LinkLead(db, lead, deal, seen, fold, u, reread)
    case NewPaymentTerm(id, x, o) => CreateTerm(db, id, x, o)
    case UpdatePaymentTerm(id, p, seen, u) => UpdateTerm(db, id, p, seen, u)
    case NewDirectCharge(id, x, given, seen, o) => CreateCharge(db, id, x, given, seen, o)
    case NewChargeFromTerm(id, term, deal, lead, basis, tenant, seen, lookup, o, reread) =>
      ChargeFromTerm(db, id, term, deal, lead, basis, tenant, seen, lookup, o, reread)
    case NewChargePayment(id, x, seen, o) => CreatePayment(db, id, x, seen, o)
    case NewLegacyPayment(id, deal, term, amount, reference, notes, o) =>
      CreateLegacyPayment(db, id, deal, term, amount, reference, notes, o)
    case UpdatePaymentRecord(id, p, seen, u) => UpdatePayment(db, id, p, seen, u)
  }

  /** The store gives a new record an id no record of the table has. */
  predicate FreshId(db: Db, a: Action) {
    match a
    case NewDeal(id, _, _, _) => id !in db.deals
    case NewPaymentTerm(id, _, _) => id !in db.terms
    case NewDirectCharge(id, _, _, _, _) => id !in db.charges
    case NewChargeFromTerm(id, _, _, _, _, _, _, _, _, _) => id !in db.charges
    case NewChargePayment(id, _, _, _) => id !in db.payments
    case NewLegacyPayment(id, _, _, _, _, _, _) => id !in db.payments
    case _ => true
  }

  function Run(db: Db, actions: seq<Action>): Db
    decreases |actions|
  {
    if actions == [] then db else Run(Step(db, actions[0]).0, actions[1..])
  }

  ghost predicate FreshIds(db: Db, actions: seq<Action>)
    decreases |actions|
  {
    actions == [] || (FreshId(db, actions[0]) && FreshIds(Step(db, actions[0]).0, actions[1..]))
  }

  lemma StepKeepsAgreement(db: Db, a: Action)
    requires Agrees(db) && FreshId(db, a)
    ensures Agrees(Step(db, a).0)
  {
    match a {
      case NewDeal(id, domain, tenant, o) =>
      case LinkLeadToDeal(lead, deal, seen, fold, u, reread) => LinkLeadKeeps(db, lead, deal, seen, fold, u, reread);
      case NewPaymentTerm(id, x, o) => CreateTermKeeps(db, id, x, o);
      case UpdatePaymentTerm(id, p, seen, u) => UpdateTermKeeps(db, id, p, seen, u);
      case NewDirectCharge(id, x, given, seen, o) => CreateChargeKeeps(db, id, x, given, seen, o);
      case NewChargeFromTerm(id, term, deal, lead, basis, tenant, seen, lookup, o, reread) =>
        ChargeFromTermKeeps(db, id, term, deal, lead, basis, tenant, seen, lookup, o, reread);
      case NewChargePayment(id, x, seen, o) => CreatePaymentKeeps(db, id, x, seen, o);
      case NewLegacyPayment(id, deal, term, amount, reference, notes, o) =>
        CreateLegacyPaymentKeeps(db, id, deal, term, amount, reference, notes, o);
      case UpdatePaymentRecord(id, p, seen, u) => UpdatePaymentKeeps(db, id, p, seen, u);
    }
  }

  /** Over every run of the writers, whatever their reads and writes meet: every Payment of a Charge has its Deal,
      direction and currency; every Charge's Term belongs to its Deal; a document is not required exactly when none is
      asked for; every Term that no code column can spoil has what its calculation type needs, even after partial updates;
      and no Lead is linked to a Deal twice. */
  lemma {:induction false} RunKeepsAgreement(db: Db, actions: seq<Action>)
    requires Agrees(db) && FreshIds(db, actions)
    ensures Agrees(Run(db, actions))
    decreases |actions|
  {
    if actions != [] {
      StepKeepsAgreement(db, actions[0]);
      RunKeepsAgreement(Step(db, actions[0]).0, actions[1..]);
    }
  }

  // ---- what no writer changes ----

  predicate SameFinancials(p: PaymentRow, q: PaymentRow) {
    && p.charges == q.charges && p.deals == q.deals && p.terms == q.terms
    && p.direction == q.direction && p.amount == q.amount && p.currency == q.currency
  }

  /** Nothing is removed; a Charge never changes; of a Payment only what is not financial, of a Term not its Deal, of a
      Deal the linked Leads only by growing. */
  ghost predicate Extends(db: Db, db1: Db) {
    && db1.refer == db.refer
    && (forall id :: id in db.charges ==> id in db1.charges && db1.charges[id] == db.charges[id])
    && (forall id :: id in db.payments ==> id in db1.payments && SameFinancials(db.payments[id], db1.payments[id]))
    && (forall id :: id in db.terms ==> id in db1.terms && db1.terms[id].deals == db.terms[id].deals)
    && (forall id :: id in db.deals ==> id in db1.deals && db.deals[id].linkedLeads <= db1.deals[id].linkedLeads)
  }

  lemma ChargeExtends(db: Db, id: Id, x: ChargeInputs, r: string, seen: bool, o: AddOutcome)
    requires id !in db.charges
    ensures Extends(db, CreateCharge(db, id, x, r, seen, o).0)
  {
  }

  lemma TermChargeExtends(
    db: Db, id: Id, term: Id, deal: Id, lead: Id, basis: Value, tenant: string, seen: bool, lookup: bool, o: AddOutcome,
    reread: bool)
    requires id !in db.charges
    ensures Extends(db, ChargeFromTerm(db, id, term, deal, lead, basis, tenant, seen, lookup, o, reread).0)
  {
    if ChargeFromTerm(db, id, term, deal, lead, basis, tenant, seen, lookup, o, reread).0 != db {
      var t := db.terms[term];
      ChargeExtends(db, id, ChargeOfTerm(deal, term, lead, t, TermCalculation(t, basis).value),
                    ReferenceOf(db, deal, term, lead, t), seen, o);
    }
  }

  lemma PaymentExtends(db: Db, id: Id, row: PaymentRow)
    requires id in db.payments ==> SameFinancials(db.payments[id], row)
    ensures Extends(db, db.(payments := db.payments[id := row]))
  {
  }

  lemma TermExtends(db: Db, id: Id, row: TermRow)
    requires id in db.terms ==> row.deals == db.terms[id].deals
    ensures Extends(db, db.(terms := db.terms[id := row]))
  {
  }

  lemma DealExtends(db: Db, id: Id, row: DealRow)
    requires id in db.deals ==> db.deals[id].linkedLeads <= row.linkedLeads
    ensures Extends(db, db.(deals := db.deals[id := row]))
  {
  }

  lemma LinkExtends(db: Db, lead: Id, deal: Id, seen: bool, fold: string -> string, u: UpdateOutcome, reread: bool)
    ensures Extends(db, LinkLead(db, lead, deal, seen, fold, u, reread).0)
  {
    if deal in db.deals { DealExtends(db, deal, db.deals[deal].(linkedLeads := db.deals[deal].linkedLeads + [lead])); }
  }

  lemma PatchExtends(db: Db, id: Id, p: TermPatch, seen: bool, u: UpdateOutcome)
    ensures Extends(db, UpdateTerm(db, id, p, seen, u).0)
  {
    if id in db.terms && RateConverts(p) { TermExtends(db, id, PatchTerm(db.terms[id], p)); }
  }

  lemma PaymentPatchExtends(db: Db, id: Id, p: PaymentPatch, seen: bool, u: UpdateOutcome)
    ensures Extends(db, UpdatePayment(db, id, p, seen, u).0)
  {
    if id in db.payments { PaymentExtends(db, id, PatchPayment(db.payments[id], p)); }
  }

  lemma StepExtends(db: Db, a: Action)
    requires FreshId(db, a)
    ensures Extends(db, Step(db, a).0)
  {
    match a {
      case NewDeal(id, domain, tenant, o) => DealExtends(db, id, DealRow(domain, tenant, []));
      case LinkLeadToDeal(lead, deal, seen, fold, u, reread) => LinkExtends(db, lead, deal, seen, fold, u, reread);
      case NewPaymentTerm(id, x, o) => CreateTermExtends(db, id, x, o);
      case UpdatePaymentTerm(id, p, seen, u) => PatchExtends(db, id, p, seen, u);
      case NewDirectCharge(id, x, given, seen, o) => ChargeExtends(db, id, x, given, seen, o);
      case NewChargeFromTerm(id, term, deal, lead, basis, tenant, seen, lookup, o, reread) =>
        TermChargeExtends(db, id, term, deal, lead, basis, tenant, seen, lookup, o, reread);
      case NewChargePayment(id, x, seen, o) => PaymentExtends(db, id, NewPayment(x));
      case NewLegacyPayment(id, deal, term, amount, reference, notes, o) =>
        LegacyExtends(db, id, deal, term, amount, reference, notes, o);
      case UpdatePaymentRecord(id, p, seen, u) => PaymentPatchExtends(db, id, p, seen, u);
    }
  }

  lemma CreateTermExtends(db: Db, id: Id, x: TermInputs, o: AddOutcome)
    requires id !in db.terms
    ensures Extends(db, CreateTerm(db, id, x, o).0)
  {
    if x.ratePct == Nothing {
      TermExtends(db, id, NewTerm(x, Nothing));
    } else if StoredRate(x.ratePct).Some? {
      TermExtends(db, id, NewTerm(x, StoredRate(x.ratePct).value));
    }
  }

  lemma LegacyExtends(db: Db, id: Id, deal: Id, term: Id, amount: Value, reference: Value, notes: Value, o: AddOutcome)
    requires id !in db.payments
    ensures Extends(db, CreateLegacyPayment(db, id, deal, term, amount, reference, notes, o).0)
  {
  }

  lemma ExtendsOn(a: Db, b: Db, c: Db)
    requires Extends(a, b) && Extends(b, c)
    ensures Extends(a, c)
  {
  }

  /** So over every run: financial facts are frozen once written, and linked Leads only grow. */
  lemma {:induction false} RunExtends(db: Db, actions: seq<Action>)
    requires FreshIds(db, actions)
    ensures Extends(db, Run(db, actions))
    decreases |actions|
  {
    if actions != [] {
      var a := actions[0];
      StepExtends(db, a);
      RunExtends(Step(db, a).0, actions[1..]);
      ExtendsOn(db, Step(db, a).0, Run(db, actions));
    }
  }

  // ---- materialising a Charge ----

  lemma MaterialisedFacts(
    db: Db, id: Id, term: Id, deal: Id, lead: Id, basis: Value, tenant: string, seen: bool, lookup: bool, o: AddOutcome,
    reread: bool)
    requires id !in db.charges
    requires var db1 := ChargeFromTerm(db, id, term, deal, lead, basis, tenant, seen, lookup, o, reread).0; db1 != db
    ensures var db1 := ChargeFromTerm(db, id, term, deal, lead, basis, tenant, seen, lookup, o, reread).0;
      && Materialisable(db, term, deal, lead, tenant) && TermCalculation(db.terms[term], basis).Some?
      && var t := db.terms[term];
      && OneOf(EffectiveType(t), ["fixed", "percentage"])
      && var x := ChargeOfTerm(deal, term, lead, t, TermCalculation(t, basis).value);
      && ChargeValueFault(x) == None
      && db1 == db.(charges := db.charges[id := NewCharge(x, ReferenceOf(db, deal, term, lead, t))])
    ensures ChargeFromTerm(db, id, term, deal, lead, basis, tenant, seen, lookup, o, reread).1 == Done
       <==> o == Created && reread
  {
  }

  /** The value of a column, or this word when there is none. */
  predicate ValueOr(v: Value, column: Value, word: string) { v == if column == Nothing then Text(word, None) else column }

  /** The value of a column, unless that is an empty text. */
  predicate CopyOf(v: Value, column: Value) { v == if Says(column, "") then Nothing else column }

  predicate InCents(v: Value, cents: int) { v == Number(cents as real / 100.0) }

  /** What a Charge is a Charge of, and the sums on it. */
  predicate ChargeStates(c: ChargeRow, deal: Id, term: Id, lead: Id, t: TermRow, f: Calculation) {
    && c.deals == [deal] && c.terms == [term] && c.leads == (if lead == "" then [] else [lead])
    && ValueOr(c.direction, t.direction, "receivable") && ValueOr(c.currency, t.currency, "ILS")
    && InCents(c.baseAmount, f.base) && InCents(c.vatAmount, f.vat) && InCents(c.amount, f.total) && f.total > 0
    && ValueOr(c.vatRule, t.vatRule, "none")
    && c.status == Text("draft", None) && c.collectionState == Text("not_due", None)
    && c.requirement == Text("none", None) && c.documentStatus == Text("not_required", None)
    && CopyOf(c.ratePct, t.ratePct) && CopyOf(c.originalDueDate, t.triggerDate) && CopyOf(c.notes, t.notes)
  }

  /** A scalar of the reference: a number, a text, or a blank. */
  predicate WrittenAs(v: Value, s: Scalar) {
    s == match v
         case Number(r) => NumberScalar(r)
         case Text(text, _) => TextScalar(text)
         case _ => TextScalar("")
  }

  /** The occurrence of a Term: its trigger, by the code column if that is filled, and the trigger's date, delay and
      event. */
  predicate IsOccurrence(t: TermRow, at: Occurrence) {
    && WrittenAs(if IsBlank(t.triggerCode) then t.trigger else t.triggerCode, at.trigger)
    && WrittenAs(t.triggerDate, at.date) && WrittenAs(t.triggerDelay, at.delay) && WrittenAs(t.triggerEvent, at.event)
  }

  lemma OccurrenceIs(t: TermRow)
    ensures IsOccurrence(t, OccurrenceOf(t))
  {
    BlankIsFalse(t.triggerCode);
  }

  lemma ChargeOfTermStates(deal: Id, term: Id, lead: Id, t: TermRow, f: Calculation, reference: string)
    requires ChargeValueFault(ChargeOfTerm(deal, term, lead, t, f)) == None && deal != "" && term != ""
    ensures ChargeStates(NewCharge(ChargeOfTerm(deal, term, lead, t, f), reference), deal, term, lead, t, f)
  {
    assert NumberOf(InMoney(f.total)) == Some(f.total as real / 100.0);
  }

  /** A Charge that was written is the Term's: its Deal, Term and Lead, its direction and currency, and in its columns the
      base, the VAT and the total that the Term's own columns ask for, to the nearest cent; its reference is that of the
      Term's occurrence; and the reply is that of success exactly when its id came back and it could be read back. */
  lemma MaterialisedChargeIsTheTerms(
    db: Db, id: Id, term: Id, deal: Id, lead: Id, basis: Value, tenant: string, seen: bool, lookup: bool, o: AddOutcome,
    reread: bool)
    returns (f: Calculation, at: Occurrence)
    requires id !in db.charges
    requires var db1 := ChargeFromTerm(db, id, term, deal, lead, basis, tenant, seen, lookup, o, reread).0; db1 != db
    ensures var db1 := ChargeFromTerm(db, id, term, deal, lead, basis, tenant, seen, lookup, o, reread).0;
      && id in db1.charges && db1 == db.(charges := db.charges[id := db1.charges[id]])
      && term in db.terms && deal in db.terms[term].deals
      && var t, c := db.terms[term], db1.charges[id];
      && (TypeIs(t, "fixed") || TypeIs(t, "percentage"))
      && Costs(t, basis, f) && ChargeStates(c, deal, term, lead, t, f)
      && IsOccurrence(t, at) && c.reference == db.refer(MaterialKey(deal, term, lead, at))
    ensures ChargeFromTerm(db, id, term, deal, lead, basis, tenant, seen, lookup, o, reread).1 == Done
       <==> o == Created && reread
  {
    MaterialisedFacts(db, id, term, deal, lead, basis, tenant, seen, lookup, o, reread);
    var t := db.terms[term];
    f := TermCalculation(t, basis).value;
    at := OccurrenceOf(t);
    TermPricedExactly(t, basis, f);
    TypeIsEffective(t, "fixed");
    TypeIsEffective(t, "percentage");
    OccurrenceIs(t);
    ChargeOfTermStates(deal, term, lead, t, f, ReferenceOf(db, deal, term, lead, t));
  }

  lemma ReferenceStays(db: Db, actions: seq<Action>, r: string)
    requires FreshIds(db, actions) && HasReference(db, r)
    ensures HasReference(Run(db, actions), r)
  {
    RunExtends(db, actions);
    var id :| id in db.charges && db.charges[id].reference == r;
    assert Run(db, actions).charges[id].reference == r;
  }

  lemma ReferencedIsNotWritten(
    db: Db, id: Id, term: Id, deal: Id, lead: Id, basis: Value, tenant: string, seen: bool, lookup: bool, o: AddOutcome,
    reread: bool)
    requires term in db.terms && HasReference(db, ReferenceOf(db, deal, term, lead, db.terms[term]))
    ensures ChargeFromTerm(db, id, term, deal, lead, basis, tenant, seen, lookup, o, reread).0 == db
  {
  }

  /** Materialising again, after the first call wrote its Charge and whatever happened since, writes nothing while the
      Term's occurrence is the same: not even when the first call never learned that it had written. */
  lemma MaterialisingAgainWritesNothing(
    db: Db, id: Id, term: Id, deal: Id, lead: Id, basis: Value, tenant: string, seen: bool, lookup: bool, o: AddOutcome,
    reread: bool, between: seq<Action>, id2: Id, basis2: Value, tenant2: string, seen2: bool, lookup2: bool, o2: AddOutcome,
    reread2: bool)
    requires id !in db.charges
    requires var db1 := ChargeFromTerm(db, id, term, deal, lead, basis, tenant, seen, lookup, o, reread).0;
      && db1 != db && FreshIds(db1, between)
      && term in Run(db1, between).terms && OccurrenceOf(Run(db1, between).terms[term]) == OccurrenceOf(db.terms[term])
    ensures var db2 := Run(ChargeFromTerm(db, id, term, deal, lead, basis, tenant, seen, lookup, o, reread).0, between);
      ChargeFromTerm(db2, id2, term, deal, lead, basis2, tenant2, seen2, lookup2, o2, reread2).0 == db2
  {
    MaterialisedFacts(db, id, term, deal, lead, basis, tenant, seen, lookup, o, reread);
    var db1 := ChargeFromTerm(db, id, term, deal, lead, basis, tenant, seen, lookup, o, reread).0;
    var r := ReferenceOf(db, deal, term, lead, db.terms[term]);
    assert db1.charges[id].reference == r;
    ReferenceStays(db1, between, r);
    RunExtends(db1, between);
    ReferencedIsNotWritten(Run(db1, between), id2, term, deal, lead, basis2, tenant2, seen2, lookup2, o2, reread2);
  }

  // ---- a Term whose code columns were filled elsewhere ----

  lemma UnprotectedTermCanBeSpoilt(t: TermRow) returns (p: TermPatch)
    requires TermSound(t) && !Protected(t)
    ensures UpdateAccepted(t, p) && !TermSound(PatchTerm(t, p))
  {
    if OneOf(t.calcCode, ["fixed"]) {
      p := NoTermPatch.(calcType := Some(Word("percentage")), ratePct := Some(Number(10.0)), calcBasis := Some(Word("basis")),
                        fixedAmount := Some(Nothing));
      assert !OneOf(Word("percentage"), ["fixed"]) by { assert |"percentage"| != |"fixed"|; }
    } else {
      p := NoTermPatch.(calcType := Some(Word("fixed")), fixedAmount := Some(Number(1.0)), calcBasis := Some(Nothing));
      assert !OneOf(Word("fixed"), ["percentage"]) by { assert |"percentage"| != |"fixed"|; }
    }
  }

  /** A sound Term stays sound under every accepted update exactly when it is protected. */
  lemma UpdatesKeepTermsExactly(t: TermRow)
    requires TermSound(t)
    ensures (forall p :: UpdateAccepted(t, p) ==> TermSound(PatchTerm(t, p))) <==> Protected(t)
  {
    if Protected(t) {
      forall p | UpdateAccepted(t, p) ensures TermSound(PatchTerm(t, p)) { PatchKeepsTerm(t, p); }
    } else {
      var p := UnprotectedTermCanBeSpoilt(t);
      assert UpdateAccepted(t, p) && !TermSound(PatchTerm(t, p));
    }
  }

  /** A Term whose code column says it is fixed, and an update to percentage that is accepted and spoils it. */
  lemma SomeTermIsSpoilt() returns (t: TermRow, p: TermPatch)
    ensures TermSound(t) && UpdateAccepted(t, p) && !TermSound(PatchTerm(t, p))
  {
    t := TermRow([], Nothing, Word("fixed"), Nothing, Nothing, Nothing, Number(1.0), Nothing, Nothing, Nothing, Nothing, Nothing,
                 Nothing, Nothing, Nothing, Nothing, Nothing, Nothing, Nothing, Nothing);
    assert !OneOf(Word("fixed"), ["percentage"]) by { assert |"percentage"| != |"fixed"|; }
    assert OneOf(t.calcCode, ["fixed"]) by { assert "fixed" in ["fixed"]; }
    p := UnprotectedTermCanBeSpoilt(t);
  }
}
