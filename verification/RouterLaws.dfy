/** What the router keeps of a session through every answer: never more than one child, a clean child, an untouched
    parent. */
module RouterLaws {
  import opened Prelude
  import opened Texts
  import opened CompletionEngine
  import opened CompletionAnswers
  import opened CompletionPayload
  import opened CommercialContracts
  import opened ContractLaws
  import opened CommercialChecks
  import opened CommercialTranslation
  import opened CompletionSession
  import opened CompletionRouter

  // ---- which questions lead to a child ----

  lemma NextIsThere(w: Writer) returns (i: nat)
    requires NextField(w).Some?
    ensures i < |w.contract.fields| && w.contract.fields[i] == NextField(w).value
    ensures IsMissing(w.contract, Resolved(w), w.contract.fields[i])
  {
    MissingIsThere(w.contract, Resolved(w), w.contract.fields, 0);
    i :| 0 <= i < |w.contract.fields| && w.contract.fields[i] == Missing(w)[0]
         && IsMissing(w.contract, Resolved(w), w.contract.fields[i]);
  }

  predicate Counterparty(f: Field) { f == CounterpartyContact || f == CounterpartyOrganization }

  lemma NotInContact(i: nat)
    requires i < |ContactContract().fields|
    ensures !Counterparty(ContactContract().fields[i].name) && ContactContract().fields[i].rule.input != Link
  {
    TableAt(5, ContactRow, ContactRule, i);
  }

  lemma NotInOrganization(i: nat)
    requires i < |OrganizationContract().fields|
    ensures !Counterparty(OrganizationContract().fields[i].name) && OrganizationContract().fields[i].rule.input != Link
  {
    TableAt(1, OrganizationRow, OrganizationRule, i);
  }

  lemma NotInTerm(i: nat)
    requires i < |PaymentTermContract().fields|
    ensures !Counterparty(PaymentTermContract().fields[i].name)
  {
    PaymentTermPlaced();
    TableAt(30, PaymentTermRow, PaymentTermRule, i);
  }

  lemma NotInCharge(i: nat)
    requires i < |ChargeContract().fields|
    ensures !Counterparty(ChargeContract().fields[i].name)
  {
    ChargePlaced();
    TableAt(25, ChargeRow, ChargeRule, i);
  }

  lemma NotInChargeFromTerm(i: nat)
    requires i < |ChargeFromTermContract().fields|
    ensures !Counterparty(ChargeFromTermContract().fields[i].name)
  {
    ChargeFromTermPlaced();
    TableAt(5, ChargeFromTermRow, ChargeFromTermRule, i);
  }

  lemma NoFollowUps(n: nat, row: nat -> (Field, Column), rule: Field -> Rule, f: Field, values: Values)
    ensures forall k :: 0 <= k < n ==> !AsksFor(Table(n, row, rule)[k], f, values)
  {
  }

  lemma PaymentCounterpartyRules()
    ensures PaymentRule(CounterpartyContact).required == Optional && PaymentRule(CounterpartyOrganization).required == Optional
  {
  }

  /** A Payment may have a counterparty but is never asked for one. */
  lemma NotAskedOfPayment(w: Writer, i: nat)
    requires w.contract == PaymentContract() && i < |w.contract.fields| && Counterparty(w.contract.fields[i].name)
    ensures !IsMissing(w.contract, Resolved(w), w.contract.fields[i])
  {
    TableAt(15, PaymentRow, PaymentRule, i);
    PaymentCounterpartyRules();
    NoFollowUps(15, PaymentRow, PaymentRule, w.contract.fields[i].name, Resolved(w));
  }

  lemma DealAskable(w: Writer, f: Field)
    requires w.contract == DealContract() && Counterparty(f) && Absent(Resolved(w), f)
    ensures !Present(Get(w.current, f))
  {
    DealWellFormed();
    var i := DealCounterpartyAt(f);
    AskableResolves(w, i);
  }

  lemma DealCounterpartyRules()
    ensures DealRule(CounterpartyContact).required == Optional && DealRule(CounterpartyOrganization).required == Optional
  {
  }

  /** A Deal is asked for its counterparty as a contact, and only while it has neither kind. */
  lemma DealAsksForContact(w: Writer, i: nat)
    requires w.contract == DealContract() && i < |w.contract.fields| && Counterparty(w.contract.fields[i].name)
    requires IsMissing(w.contract, Resolved(w), w.contract.fields[i])
    ensures w.contract.fields[i].name == CounterpartyContact
    ensures !Present(Get(w.current, CounterpartyContact)) && !Present(Get(w.current, CounterpartyOrganization))
  {
    var f := w.contract.fields[i].name;
    TableAt(22, DealRow, DealRule, i);
    DealCounterpartyRules();
    NoFollowUps(22, DealRow, DealRule, f, Resolved(w));
    var g :| 0 <= g < |w.contract.oneOf| && StandsFor(w.contract.oneOf[g], f, Resolved(w));
    DealGroup(w.contract.oneOf[g], f, Resolved(w));
    DealAskable(w, CounterpartyContact);
    DealAskable(w, CounterpartyOrganization);
  }

  lemma DealGroup(group: seq<Field>, f: Field, values: Values)
    requires group == [CounterpartyContact, CounterpartyOrganization] && StandsFor(group, f, values)
    ensures f == CounterpartyContact && Absent(values, CounterpartyContact) && Absent(values, CounterpartyOrganization)
  {
    assert group[0] == CounterpartyContact && group[1] == CounterpartyOrganization;
  }

  /** Of all entities only a Deal is ever asked for a counterparty. */
  lemma CounterpartyIsAskedOfDeals(w: Writer, e: Entity)
    requires w.contract == ContractOf(e) && NextField(w).Some? && Counterparty(NextField(w).value.name)
    ensures e == DealEntity && w.contract == DealContract() && NextField(w).value.name == CounterpartyContact
    ensures !Present(Get(w.current, CounterpartyContact)) && !Present(Get(w.current, CounterpartyOrganization))
  {
    var i := NextIsThere(w);
    match e {
      case ContactEntity => NotInContact(i);
      case OrganizationEntity => NotInOrganization(i);
      case PaymentTermEntity => NotInTerm(i);
      case ChargeEntity => NotInCharge(i);
      case ChargeFromTermEntity => NotInChargeFromTerm(i);
      case PaymentEntity => NotAskedOfPayment(w, i);
      case DealEntity => DealAsksForContact(w, i);
    }
  }
}
