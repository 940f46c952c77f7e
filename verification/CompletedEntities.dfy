/** Every entity completed by answers can be handed to its writer: no column its translation reads is missing, and every
    link is one id. */
module CompletedEntities {
  import opened Prelude
  import opened Texts
  import opened Vocabulary
  import opened CompletionEngine
  import opened CompletionAnswers
  import opened CompletionPayload
  import opened CommercialContracts
  import opened ContractLaws
  import opened CommercialChecks
  import opened CommercialTranslation
  import opened CompletionSession
  import opened CompletionRouter
  import ChargeAnswers
  import PaymentAnswers
  import TermAnswers

  // ---- distinct columns ----

  function DealColumnPlace(c: Column): nat {
    match c
    case DealName => 0
    case DealDomain => 1
    case DealOwner => 2
    case OriginLeadColumn => 3
    case CounterpartyContactColumn => 4
    case CounterpartyOrganizationColumn => 5
    case DealTypeCode => 6
    case RelationshipTypeColumn => 7
    case BusinessDealTypeColumn => 8
    case RelationshipRoleColumn => 9
    case EngagementDurationColumn => 10
    case CurrencyColumn => 11
    case CommercialStatusColumn => 12
    case EstimatedValueBasisColumn => 13
    case EstimatedValueRangeColumn => 14
    case EstimatedValueNotesColumn => 15
    case StageColumn => 16
    case StartDateColumn => 17
    case NotesColumn => 18
    case TotalChargedColumn => 19
    case TotalCollectedColumn => 20
    case OutstandingColumn => 21
    case _ => 22
  }

  lemma DealColumnPlacedAt(i: nat)
    requires i < 22
    ensures DealColumnPlace(DealRow(i).1) == i
  {
  }

  lemma DealOwnColumns()
    ensures OwnColumns(DealContract().fields)
  {
    forall i | 0 <= i < 22 ensures DealColumnPlace(DealRow(i).1) == i { DealColumnPlacedAt(i); }
    TableOwnColumns(22, DealRow, DealRule, DealColumnPlace);
  }

  function ContactColumnPlace(c: Column): nat {
    match c
    case ContactNameColumn => 0
    case ContactPhone => 1
    case ContactEmail => 2
    case ContactCompany => 3
    case _ => 4
  }

  lemma ContactOwnColumns()
    ensures OwnColumns(ContactContract().fields)
  {
    TableOwnColumns(5, ContactRow, ContactRule, ContactColumnPlace);
  }

  lemma OrganizationOwnColumns()
    ensures OwnColumns(OrganizationContract().fields)
  {
    TableOwnColumns(1, OrganizationRow, OrganizationRule, _ => 0);
  }

  function ChargeFromTermColumnPlace(c: Column): nat {
    match c
    case DealIdKey => 0
    case PaymentTermIdKey => 1
    case LeadIdKey => 2
    case BasisValueKey => 3
    case _ => 4
  }

  lemma ChargeFromTermOwnColumns()
    ensures OwnColumns(ChargeFromTermContract().fields)
  {
    TableOwnColumns(5, ChargeFromTermRow, ChargeFromTermRule, ChargeFromTermColumnPlace);
  }

  // ---- what a contract has ----

  /** A field that is always required, at its place. */
  predicate AlwaysAt(e: EntityContract, i: nat, col: Column) {
    && i < |e.fields| && e.fields[i].column == col
    && Askable(e.fields[i]) && Carried(e.fields[i]) && e.fields[i].rule.required == Always
  }

  predicate LinkAt(e: EntityContract, i: nat, col: Column) {
    && i < |e.fields| && e.fields[i].column == col && e.fields[i].rule.input == Link
    && Askable(e.fields[i]) && Carried(e.fields[i]) && e.fields[i].rule.default == Nothing
  }

  ghost predicate HasAlways(e: EntityContract, col: Column) { exists i :: AlwaysAt(e, i, col) }

  ghost predicate HasLink(e: EntityContract, col: Column) { exists i :: LinkAt(e, i, col) }

  /** The columns are of fields always required; they are of links. */
  ghost predicate AllAlways(e: EntityContract, cols: seq<Column>) { forall col :: col in cols ==> HasAlways(e, col) }

  ghost predicate AllLinks(e: EntityContract, cols: seq<Column>) { forall col :: col in cols ==> HasLink(e, col) }

  /** What is always required is in the payload of every complete entity, wherever its value came from. */
  lemma AlwaysIsThere(w: Writer, cols: seq<Column>)
    requires Complete(w) && OwnColumns(w.contract.fields) && AllAlways(w.contract, cols)
    ensures AllThere(PayloadFor(w), cols)
  {
    forall j | 0 <= j < |cols| ensures cols[j] in PayloadFor(w) {
      assert HasAlways(w.contract, cols[j]);
      var i :| AlwaysAt(w.contract, i, cols[j]);
      RequiredIsPresent(w, i);
      PayloadAt(Resolved(w), w.contract.fields, i);
    }
  }

  lemma AnsweredLinkIsOneId(w: Writer, i: nat, col: Column)
    requires WellFormed(w.contract) && OwnColumns(w.contract.fields) && AskedFromAnswers(w) && LinkAt(w.contract, i, col)
    ensures col in PayloadFor(w) ==> LinkId(PayloadFor(w)[col]).Some?
  {
    FieldFromAnswers(w, i);
    PayloadAt(Resolved(w), w.contract.fields, i);
    if col in PayloadFor(w) { SettledLink(PayloadFor(w)[col]); }
  }

  lemma AnsweredLinksGood(w: Writer, cols: seq<Column>)
    requires WellFormed(w.contract) && OwnColumns(w.contract.fields) && AskedFromAnswers(w) && AllLinks(w.contract, cols)
    ensures LinksGood(PayloadFor(w), cols)
  {
    forall j | 0 <= j < |cols| && cols[j] in PayloadFor(w) ensures LinkId(PayloadFor(w)[cols[j]]).Some? {
      assert HasLink(w.contract, cols[j]);
      var i :| LinkAt(w.contract, i, cols[j]);
      AnsweredLinkIsOneId(w, i, cols[j]);
    }
  }

  lemma TwoAlways(e: EntityContract, a: Column, b: Column)
    requires HasAlways(e, a) && HasAlways(e, b)
    ensures AllAlways(e, [a, b])
  {
  }

  lemma MoreAlways(e: EntityContract, cols: seq<Column>, col: Column)
    requires AllAlways(e, cols) && HasAlways(e, col)
    ensures AllAlways(e, [col] + cols)
  {
  }

  lemma TwoLinks(e: EntityContract, a: Column, b: Column)
    requires HasLink(e, a) && HasLink(e, b)
    ensures AllLinks(e, [a, b])
  {
  }

  lemma MoreLinks(e: EntityContract, cols: seq<Column>, col: Column)
    requires AllLinks(e, cols) && HasLink(e, col)
    ensures AllLinks(e, [col] + cols)
  {
  }

  // ---- the four entities, place by place ----

  lemma DealAlways(i: nat, col: Column)
    requires i < 3 && col == DealRow(i).1
    ensures HasAlways(DealContract(), col)
  {
    TableAt(22, DealRow, DealRule, i);
    assert AlwaysAt(DealContract(), i, col);
  }

  lemma DealKeys()
    ensures AllAlways(DealContract(), KeysOf(DealEntity))
  {
    DealAlways(0, DealName);
    DealAlways(1, DealDomain);
    DealAlways(2, DealOwner);
    TwoAlways(DealContract(), DealDomain, DealOwner);
    MoreAlways(DealContract(), [DealDomain, DealOwner], DealName);
    assert KeysOf(DealEntity) == [DealName] + [DealDomain, DealOwner];
  }

  lemma DealLink(i: nat, col: Column)
    requires 2 <= i < 6 && col == DealRow(i).1
    ensures HasLink(DealContract(), col)
  {
    TableAt(22, DealRow, DealRule, i);
    assert LinkAt(DealContract(), i, col);
  }

  lemma DealLinks()
    ensures AllLinks(DealContract(), LinksOf(DealEntity))
  {
    DealLink(2, DealOwner);
    DealLink(3, OriginLeadColumn);
    DealLink(4, CounterpartyContactColumn);
    DealLink(5, CounterpartyOrganizationColumn);
    var last := [CounterpartyContactColumn, CounterpartyOrganizationColumn];
    TwoLinks(DealContract(), CounterpartyContactColumn, CounterpartyOrganizationColumn);
    MoreLinks(DealContract(), last, OriginLeadColumn);
    MoreLinks(DealContract(), [OriginLeadColumn] + last, DealOwner);
    assert LinksOf(DealEntity) == [DealOwner] + ([OriginLeadColumn] + last);
  }

  lemma ContactAlways(i: nat, col: Column)
    requires i < 2 && col == ContactRow(i).1
    ensures HasAlways(ContactContract(), col)
  {
    TableAt(5, ContactRow, ContactRule, i);
    assert AlwaysAt(ContactContract(), i, col);
  }

  lemma ContactKeys()
    ensures AllAlways(ContactContract(), KeysOf(ContactEntity))
  {
    ContactAlways(0, ContactNameColumn);
    ContactAlways(1, ContactPhone);
    TwoAlways(ContactContract(), ContactNameColumn, ContactPhone);
  }

  lemma OrganizationAlways(i: nat, col: Column)
    requires i < 1 && col == OrganizationRow(i).1
    ensures HasAlways(OrganizationContract(), col)
  {
    TableAt(1, OrganizationRow, OrganizationRule, i);
    assert AlwaysAt(OrganizationContract(), i, col);
  }

  lemma OrganizationKeys()
    ensures AllAlways(OrganizationContract(), KeysOf(OrganizationEntity))
  {
    OrganizationAlways(0, OrganizationNameColumn);
  }

  lemma ChargeFromTermAlways(i: nat, col: Column)
    requires i < 2 && col == ChargeFromTermRow(i).1
    ensures HasAlways(ChargeFromTermContract(), col)
  {
    TableAt(5, ChargeFromTermRow, ChargeFromTermRule, i);
    assert AlwaysAt(ChargeFromTermContract(), i, col);
  }

  lemma ChargeFromTermKeys()
    ensures AllAlways(ChargeFromTermContract(), KeysOf(ChargeFromTermEntity))
  {
    ChargeFromTermAlways(0, DealIdKey);
    ChargeFromTermAlways(1, PaymentTermIdKey);
    TwoAlways(ChargeFromTermContract(), DealIdKey, PaymentTermIdKey);
  }

  lemma ChargeFromTermLink(i: nat, col: Column)
    requires i < 3 && col == ChargeFromTermRow(i).1
    ensures HasLink(ChargeFromTermContract(), col)
  {
    TableAt(5, ChargeFromTermRow, ChargeFromTermRule, i);
    assert LinkAt(ChargeFromTermContract(), i, col);
  }

  lemma ChargeFromTermLinks()
    ensures AllLinks(ChargeFromTermContract(), LinksOf(ChargeFromTermEntity))
  {
    ChargeFromTermLink(0, DealIdKey);
    ChargeFromTermLink(1, PaymentTermIdKey);
    ChargeFromTermLink(2, LeadIdKey);
    TwoLinks(ChargeFromTermContract(), PaymentTermIdKey, LeadIdKey);
    MoreLinks(ChargeFromTermContract(), [PaymentTermIdKey, LeadIdKey], DealIdKey);
    assert LinksOf(ChargeFromTermEntity) == [DealIdKey] + [PaymentTermIdKey, LeadIdKey];
  }

  predicate Plainly(e: Entity) { e in {DealEntity, ContactEntity, OrganizationEntity, ChargeFromTermEntity} }

  lemma KeysAreAlways(e: Entity)
    requires Plainly(e)
    ensures AllAlways(ContractOf(e), KeysOf(e)) && OwnColumns(ContractOf(e).fields)
  {
    match e {
      case DealEntity =>
        DealKeys();
        DealOwnColumns();
      case ContactEntity =>
        ContactKeys();
        ContactOwnColumns();
      case OrganizationEntity =>
        OrganizationKeys();
        OrganizationOwnColumns();
      case ChargeFromTermEntity =>
        ChargeFromTermKeys();
        ChargeFromTermOwnColumns();
    }
  }

  lemma LinksAreLinks(e: Entity)
    requires Plainly(e)
    ensures AllLinks(ContractOf(e), LinksOf(e))
  {
    match e {
      case DealEntity => DealLinks();
      case ChargeFromTermEntity => ChargeFromTermLinks();
      case _ =>
    }
  }

  /** A Deal, Contact, Organization or Charge from a Term that is complete has every column its translation reads,
      whether its values were answered, inherited or there before. */
  lemma CompleteHasItsKeys(w: Writer)
    requires w.contract == ContractOf(w.contract.entity) && Complete(w) && Plainly(w.contract.entity)
    ensures CompletePayload(w) == Some(PayloadFor(w)) && AllThere(PayloadFor(w), KeysOf(w.contract.entity))
  {
    KeysAreAlways(w.contract.entity);
    AlwaysIsThere(w, KeysOf(w.contract.entity));
  }

  // ---- every entity ----

  /** Completed by accepted answers alone; of a Charge from a Term, save the calculation type read off the Term. */
  ghost predicate CompletedByAnswers(w: Writer) {
    && w.contract == ContractOf(w.contract.entity) && Complete(w)
    && if w.contract.entity == ChargeFromTermEntity then AskedFromAnswers(w) else FromAnswers(w)
  }

  lemma CommercialKeysAreThere(w: Writer)
    requires CompletedByAnswers(w) && w.contract.entity in {ChargeEntity, PaymentEntity, PaymentTermEntity}
    ensures AllThere(PayloadFor(w), KeysOf(w.contract.entity)) && LinksGood(PayloadFor(w), LinksOf(w.contract.entity))
  {
    match w.contract.entity {
      case ChargeEntity => ChargeAnswers.AnsweredChargeAccepted(w);
      case PaymentEntity => PaymentAnswers.AnsweredPaymentAccepted(w);
      case PaymentTermEntity => TermAnswers.AnsweredTermAccepted(w);
    }
  }

  /** Every entity completed by answers translates: no column is missing, and every link is one id. */
  lemma AnsweredEntityTranslates(w: Writer)
    requires CompletedByAnswers(w)
    ensures CompletePayload(w) == Some(PayloadFor(w))
    ensures AllThere(PayloadFor(w), KeysOf(w.contract.entity)) && LinksGood(PayloadFor(w), LinksOf(w.contract.entity))
  {
    var e := w.contract.entity;
    if Plainly(e) {
      CompleteHasItsKeys(w);
      EveryContractWellFormed(e, w.contract);
      KeysAreAlways(e);
      LinksAreLinks(e);
      if e != ChargeFromTermEntity { FromAnswersIsAsked(w); }
      AnsweredLinksGood(w, LinksOf(e));
    } else {
      CommercialKeysAreThere(w);
    }
  }

  /** So the router hands it to the queue, at the root or nested, unless the queue itself fails. */
  lemma AnsweredEntityIsQueued(s: Session, world: World)
    requires CompletedByAnswers(Active(s))
    ensures Finish(s, world).verdict.Tool? <==> !world.queueFails
  {
    AnsweredEntityTranslates(Active(s));
  }
}
