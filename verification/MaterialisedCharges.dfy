/** A materialised Charge is recognised by the text of its reference, and any writer of Charges may give any text: exactly
    when no two Charges come to carry the text of one materialisation. */
module MaterialisedCharges {
  import opened Prelude
  import opened Texts
  import opened StoreOutcomes
  import opened Vocabulary
  import opened CompletionEngine
  import opened CompletionAnswers
  import opened CommercialContracts
  import opened CommercialChecks
  import opened ChargeReference
  import opened CommercialTables
  import opened CommercialRuns

  /** The text of some materialisation. */
  ghost predicate IsMaterialText(db: Db, r: string) { exists k :: db.refer(k) == r }

  /** No two Charges carry one materialisation's text. */
  ghost predicate MaterialisedOnce(db: Db) {
    forall a, b :: a in db.charges && b in db.charges && db.charges[a].reference == db.charges[b].reference ==>
      a == b || !IsMaterialText(db, db.charges[a].reference)
  }

  /** The text is a materialisation's that some Charge carries already. */
  ghost predicate Taken(db: Db, r: string) { IsMaterialText(db, r) && HasReference(db, r) }

  /** A Charge is written directly with such a text. */
  ghost predicate Repeats(db: Db, a: Action) {
    a.NewDirectCharge? && a.id in Step(db, a).0.charges && Taken(db, a.given)
  }

  lemma AddedChargeExactly(db: Db, id: Id, c: ChargeRow)
    requires MaterialisedOnce(db) && id !in db.charges
    ensures MaterialisedOnce(db.(charges := db.charges[id := c])) <==> !Taken(db, c.reference)
  {
    var db1 := db.(charges := db.charges[id := c]);
    if Taken(db, c.reference) {
      var other :| other in db.charges && db.charges[other].reference == c.reference;
      assert other in db1.charges && id in db1.charges && db1.charges[other].reference == db1.charges[id].reference;
    } else if IsMaterialText(db, c.reference) {
      assert forall other :: other in db.charges ==> db.charges[other].reference != c.reference;
    }
  }

  lemma SameChargesSame(db: Db, db1: Db)
    requires db1.charges == db.charges && db1.refer == db.refer
    ensures MaterialisedOnce(db1) <==> MaterialisedOnce(db)
  {
  }

  lemma DirectChargeExactly(db: Db, id: Id, x: ChargeInputs, given: string, seen: bool, o: AddOutcome)
    requires MaterialisedOnce(db) && id !in db.charges
    ensures var db1 := CreateCharge(db, id, x, given, seen, o).0;
      MaterialisedOnce(db1) <==> !(id in db1.charges && Taken(db, given))
  {
    AddedChargeExactly(db, id, NewCharge(x, given));
  }

  lemma ChargeFromTermKeepsOnce(
    db: Db, id: Id, term: Id, deal: Id, lead: Id, basis: Value, tenant: string, seen: bool, lookup: bool, o: AddOutcome,
    reread: bool)
    requires MaterialisedOnce(db) && id !in db.charges
    ensures MaterialisedOnce(ChargeFromTerm(db, id, term, deal, lead, basis, tenant, seen, lookup, o, reread).0)
  {
    var db1 := ChargeFromTerm(db, id, term, deal, lead, basis, tenant, seen, lookup, o, reread).0;
    if db1 != db {
      MaterialisedFacts(db, id, term, deal, lead, basis, tenant, seen, lookup, o, reread);
      WrittenWasNotThere(db, id, term, deal, lead, basis, tenant, seen, lookup, o, reread);
      AddedChargeExactly(db, id, db1.charges[id]);
    }
  }

  lemma WrittenWasNotThere(
    db: Db, id: Id, term: Id, deal: Id, lead: Id, basis: Value, tenant: string, seen: bool, lookup: bool, o: AddOutcome,
    reread: bool)
    requires ChargeFromTerm(db, id, term, deal, lead, basis, tenant, seen, lookup, o, reread).0 != db
    ensures term in db.terms && !HasReference(db, ReferenceOf(db, deal, term, lead, db.terms[term]))
  {
  }

  lemma OtherStepsLeaveCharges(db: Db, a: Action)
    requires !a.NewDirectCharge? && !a.NewChargeFromTerm?
    ensures Step(db, a).0.charges == db.charges && Step(db, a).0.refer == db.refer
  {
  }

  /** One call, exactly: a directly written Charge that takes the text of a materialisation there already is the only one
      that makes two of one. */
  lemma StepKeepsOnceExactly(db: Db, a: Action)
    requires MaterialisedOnce(db) && FreshId(db, a)
    ensures MaterialisedOnce(Step(db, a).0) <==> !Repeats(db, a)
  {
    match a {
      case NewDirectCharge(id, x, given, seen, o) => DirectChargeExactly(db, id, x, given, seen, o);
      case NewChargeFromTerm(id, term, deal, lead, basis, tenant, seen, lookup, o, reread) =>
        ChargeFromTermKeepsOnce(db, id, term, deal, lead, basis, tenant, seen, lookup, o, reread);
      case _ =>
        OtherStepsLeaveCharges(db, a);
        SameChargesSame(db, Step(db, a).0);
    }
  }

  ghost predicate NeverRepeats(db: Db, actions: seq<Action>)
    decreases |actions|
  {
    actions == [] || (!Repeats(db, actions[0]) && NeverRepeats(Step(db, actions[0]).0, actions[1..]))
  }

  /** Two Charges of one materialisation are never undone. */
  lemma TwiceStaysTwice(db: Db, actions: seq<Action>)
    requires FreshIds(db, actions) && !MaterialisedOnce(db)
    ensures !MaterialisedOnce(Run(db, actions))
  {
    RunExtends(db, actions);
    var a, b :| a in db.charges && b in db.charges && a != b
      && db.charges[a].reference == db.charges[b].reference && IsMaterialText(db, db.charges[a].reference);
    var end := Run(db, actions);
    assert a in end.charges && b in end.charges && end.charges[a].reference == end.charges[b].reference;
  }

  /** Over every run of the writers: a Charge is materialised at most once for each text exactly when no direct writer
      gave a text already taken. */
  lemma {:induction false} RunMaterialisesOnceExactly(db: Db, actions: seq<Action>)
    requires MaterialisedOnce(db) && FreshIds(db, actions)
    ensures MaterialisedOnce(Run(db, actions)) <==> NeverRepeats(db, actions)
    decreases |actions|
  {
    if actions != [] {
      var next := Step(db, actions[0]).0;
      StepKeepsOnceExactly(db, actions[0]);
      if Repeats(db, actions[0]) {
        TwiceStaysTwice(next, actions[1..]);
      } else {
        RunMaterialisesOnceExactly(next, actions[1..]);
      }
    }
  }

  /** Keys are written as JSON texts. */
  ghost predicate RefersInJson(db: Db, numeral: real -> string) {
    Numerals(numeral) && forall k :: db.refer(k) == ReferenceText(k, numeral)
  }

  /** The text is the key: where it is carried once, two Charges that carry the texts of two keys are one Charge exactly
      when the Deal, Term, Lead and occurrence are the same. */
  lemma OneChargePerKey(db: Db, numeral: real -> string, a: Id, b: Id, k: MaterialKey, l: MaterialKey)
    requires MaterialisedOnce(db) && RefersInJson(db, numeral) && a in db.charges && b in db.charges
    requires db.charges[a].reference == db.refer(k) && db.charges[b].reference == db.refer(l)
    ensures a == b <==> k == l
  {
    ReferenceNamesTheKey(k, l, numeral);
    assert IsMaterialText(db, db.charges[a].reference);
  }

  // ---- a text taken twice ----

  /** A Charge as anyone may write it. */
  function PlainCharge(deal: Id): ChargeInputs {
    ChargeInputs(deal, Word("receivable"), Number(1.0), Word("ILS"), Word("draft"), Word("not_due"), Word("none"), Word("none"),
                 Word("not_required"), "", "", Nothing, Nothing, Nothing, Nothing, Nothing, Nothing, Nothing, Nothing, Nothing,
                 Nothing, Nothing)
  }

  lemma PlainChargePasses(deal: Id)
    ensures ChargeValueFault(PlainCharge(deal)) == None
  {
    SampleIsOffered(Directions);
    SampleIsOffered(Currencies);
    FirstStatesAreOffered();
    NoneIsOffered();
    StatusesAreOffered();
    assert "none" in ["none"] && "not_required" in ["not_required"];
  }

  lemma PlainChargeIsWritten(db: Db, id: Id, deal: Id, r: string)
    requires RecordId(deal) && deal in db.deals
    ensures id in CreateCharge(db, id, PlainCharge(deal), r, true, Created).0.charges
  {
    PlainChargePasses(deal);
  }

  /** Wherever a materialised Charge stands, a direct writer can write a second with its text. */
  lemma TakenTextCanBeRepeated(db: Db, id: Id, deal: Id, r: string)
    requires MaterialisedOnce(db) && Taken(db, r) && id !in db.charges && RecordId(deal) && deal in db.deals
    ensures !MaterialisedOnce(Step(db, NewDirectCharge(id, PlainCharge(deal), r, true, Created)).0)
  {
    PlainChargeIsWritten(db, id, deal, r);
    DirectChargeExactly(db, id, PlainCharge(deal), r, true, Created);
  }
}
