/** Every session the router can reach: one entity, or a Deal with one Contact or Organization being completed for it. */
module RouterSafety {
  import opened Prelude
  import opened Texts
  import opened CompletionEngine
  import opened CompletionAnswers
  import opened CompletionPayload
  import opened CommercialContracts
  import opened ContractLaws
  import opened CommercialChecks
  import opened CompletionSession
  import opened CompletionRouter
  import opened RouterLaws

  predicate Mark(f: Field) {
    f in {CounterpartyKind, PendingLinkChoice, PendingNestedCreate, PendingApprovalNonce}
  }

  ghost predicate Standing(w: Writer) { w.contract == ContractOf(w.contract.entity) }

  /** An offer to create is only ever made for a counterparty. */
  predicate HonestOffer(current: Values) {
    var offer := Get(current, PendingNestedCreate);
    offer.Offer? ==> Counterparty(offer.offered) && NameField(offer.nested).Some?
  }

  ghost predicate Root(w: Writer) { Standing(w) && HonestOffer(w.current) }

  ghost predicate Child(w: Writer) {
    && Standing(w) && NameField(w.contract.entity).Some?
    && PendingLinkChoice !in w.current && PendingNestedCreate !in w.current
  }

  /** The parent waits for its counterparty: a Deal that has neither kind of one. */
  ghost predicate Waiting(w: Writer) {
    && Root(w) && w.contract.entity == DealEntity
    && !Present(Get(w.current, CounterpartyContact)) && !Present(Get(w.current, CounterpartyOrganization))
  }

  ghost predicate Sound(s: Session) {
    if |s| == 1 then Root(s[0].writer)
    else |s| == 2 && Waiting(s[0].writer) && Child(s[1].writer) && s[1].returnField.Some? && Counterparty(s[1].returnField.value)
  }

  // ---- marks are no fields ----

  lemma {:induction false} FindMisses(fields: seq<FieldContract>, f: Field)
    requires forall i :: 0 <= i < |fields| ==> fields[i].name != f
    ensures FindField(fields, f) == None
    decreases |fields|
  {
    if fields != [] { FindMisses(fields[1..], f); }
  }

  lemma TableMisses(n: nat, row: nat -> (Field, Column), rule: Field -> Rule, place: Field -> nat, f: Field)
    requires Placed(n, row, place) && place(f) >= n
    ensures FindField(Table(n, row, rule), f) == None
  {
    forall i | 0 <= i < n ensures Table(n, row, rule)[i].name != f { TableAt(n, row, rule, i); }
    FindMisses(Table(n, row, rule), f);
  }

  lemma NoMarkInContact(f: Field)
    requires Mark(f)
    ensures FindField(ContactContract().fields, f) == None
  {
    ContactPlaced();
    TableMisses(5, ContactRow, ContactRule, ContactPlace, f);
  }

  lemma NoMarkInOrganization(f: Field)
    requires Mark(f)
    ensures FindField(OrganizationContract().fields, f) == None
  {
    OrganizationPlaced();
    TableMisses(1, OrganizationRow, OrganizationRule, OrganizationPlace, f);
  }

  lemma NoMarkInDeal(f: Field)
    requires Mark(f)
    ensures FindField(DealContract().fields, f) == None
  {
    DealPlaced();
    TableMisses(22, DealRow, DealRule, DealPlace, f);
  }

  lemma NoMarkInPaymentTerm(f: Field)
    requires Mark(f)
    ensures FindField(PaymentTermContract().fields, f) == None
  {
    PaymentTermPlaced();
    TableMisses(30, PaymentTermRow, PaymentTermRule, PaymentTermPlace, f);
  }

  lemma NoMarkInCharge(f: Field)
    requires Mark(f)
    ensures FindField(ChargeContract().fields, f) == None
  {
    ChargePlaced();
    TableMisses(25, ChargeRow, ChargeRule, ChargePlace, f);
  }

  lemma NoMarkInChargeFromTerm(f: Field)
    requires Mark(f)
    ensures FindField(ChargeFromTermContract().fields, f) == None
  {
    ChargeFromTermPlaced();
    TableMisses(5, ChargeFromTermRow, ChargeFromTermRule, ChargeFromTermPlace, f);
  }

  lemma NoMarkInPayment(f: Field)
    requires Mark(f)
    ensures FindField(PaymentContract().fields, f) == None
  {
    PaymentPlaced();
    TableMisses(15, PaymentRow, PaymentRule, PaymentPlace, f);
  }

  lemma NoMarkInCounterparties(e: Entity, contract: EntityContract, f: Field)
    requires Mark(f) && contract == ContractOf(e) && (e == ContactEntity || e == OrganizationEntity)
    ensures FindField(contract.fields, f) == None
  {
    if e == ContactEntity { NoMarkInContact(f); } else { NoMarkInOrganization(f); }
  }

  lemma NoMarkInDealings(e: Entity, contract: EntityContract, f: Field)
    requires Mark(f) && contract == ContractOf(e) && (e == DealEntity || e == PaymentEntity)
    ensures FindField(contract.fields, f) == None
  {
    if e == DealEntity { NoMarkInDeal(f); } else { NoMarkInPayment(f); }
  }

  lemma MarksAreNoFields(e: Entity, contract: EntityContract, f: Field)
    requires Mark(f) && contract == ContractOf(e)
    ensures FindField(contract.fields, f) == None
  {
    match e {
      case ContactEntity | OrganizationEntity => NoMarkInCounterparties(e, contract, f);
      case ChargeEntity => NoMarkInCharge(f);
      case ChargeFromTermEntity => NoMarkInChargeFromTerm(f);
      case DealEntity | PaymentEntity => NoMarkInDealings(e, contract, f);
      case PaymentTermEntity => NoMarkInPaymentTerm(f);
    }
  }

  // ---- answers and inspection ----

  /** An answer writes one field of the contract and no mark. */
  lemma AnswerWritesAField(w: Writer, f: Field, v: Value)
    requires Standing(w) && ApplyAnswer(w, f, v).Applied?
    ensures !Mark(f)
    ensures FindField(w.contract.fields, f).Some? && Accepts(FindField(w.contract.fields, f).value, v)
    ensures ApplyAnswer(w, f, v).writer == Put(w, f, Kept(FindField(w.contract.fields, f).value, v))
  {
    if Mark(f) { MarksAreNoFields(w.contract.entity, w.contract, f); }
  }

  /** The same stack but for the values of its top. */
  predicate SameBelow(s: Session, s1: Session) {
    |s1| == |s| && (|s| == 2 ==> s1[0] == s[0] && s1[1].returnField == s[1].returnField)
  }

  lemma PutKeepsSound(s: Session, f: Field, v: Value)
    requires Sound(s) && f != PendingLinkChoice && f != PendingNestedCreate
    ensures Sound(WithTop(s, Put(Active(s), f, v))) && SameBelow(s, WithTop(s, Put(Active(s), f, v)))
  {
    var s1 := WithTop(s, Put(Active(s), f, v));
    assert Get(Active(s1).current, PendingNestedCreate) == Get(Active(s).current, PendingNestedCreate);
  }

  lemma AnswerIsPut(s: Session, f: Field, v: Value)
    requires Standing(Active(s)) && Answer(s, f, v).Done?
    ensures !Mark(f) && FindField(Active(s).contract.fields, f).Some? && Accepts(FindField(Active(s).contract.fields, f).value, v)
    ensures Answer(s, f, v).session == WithTop(s, Put(Active(s), f, Kept(FindField(Active(s).contract.fields, f).value, v)))
  {
    AnswerWritesAField(Active(s), f, v);
  }

  lemma SoundStands(s: Session)
    requires Sound(s)
    ensures Standing(Active(s))
  {
  }

  lemma AnswerPutsOne(s: Session, f: Field, v: Value, s1: Session) returns (kept: Value)
    requires Sound(s) && Answer(s, f, v) == Done(s1)
    ensures !Mark(f) && s1 == WithTop(s, Put(Active(s), f, kept))
  {
    SoundStands(s);
    AnswerIsPut(s, f, v);
    kept := Kept(FindField(Active(s).contract.fields, f).value, v);
  }

  lemma AnswerKeepsSound(s: Session, f: Field, v: Value, s1: Session)
    requires Sound(s) && Answer(s, f, v) == Done(s1)
    ensures Sound(s1) && SameBelow(s, s1)
  {
    var kept := AnswerPutsOne(s, f, v, s1);
    PutKeepsSound(s, f, kept);
  }

  lemma ContextUnfolds(s: Session, term: TermRead)
    requires TermContext(s, term).Some?
    ensures TermContext(s, term).value == s
         || (term.TermFound? && Active(s).contract.entity == ChargeFromTermEntity
             && TermContext(s, term).value == WithTop(s, Put(Active(s), TermCalcType, Word(term.calcType))))
  {
  }

  lemma ContextKeepsSound(s: Session, term: TermRead)
    requires Sound(s) && TermContext(s, term).Some?
    ensures Sound(TermContext(s, term).value) && SameBelow(s, TermContext(s, term).value)
  {
    ContextUnfolds(s, term);
    if term.TermFound? { PutKeepsSound(s, TermCalcType, Word(term.calcType)); }
  }

  lemma InspectUnfolds(s: Session, world: World)
    ensures Inspect(s, world).session ==
      if TermContext(s, world.term) == None then s
      else if NextField(Active(TermContext(s, world.term).value)) == None then Marked(TermContext(s, world.term).value, world.nonce)
      else TermContext(s, world.term).value
  {
  }

  lemma MarkKeepsSound(s: Session, nonce: string)
    requires Sound(s)
    ensures Sound(Marked(s, nonce)) && SameBelow(s, Marked(s, nonce))
  {
    PutKeepsSound(s, PendingApprovalNonce, Word(nonce));
  }

  lemma InspectKeepsSound(s: Session, world: World)
    requires Sound(s)
    ensures Sound(Inspect(s, world).session) && SameBelow(s, Inspect(s, world).session)
  {
    InspectUnfolds(s, world);
    if TermContext(s, world.term).Some? {
      ContextKeepsSound(s, world.term);
      MarkKeepsSound(TermContext(s, world.term).value, world.nonce);
    }
  }

  /** Except for a Charge from a Term, inspection only marks a complete child with its nonce. */
  lemma InspectOnlyMarks(s: Session, world: World)
    requires Active(s).contract.entity != ChargeFromTermEntity
    ensures Inspect(s, world).session == if NextField(Active(s)) == None then Marked(s, world.nonce) else s
  {
    InspectUnfolds(s, world);
  }

  lemma AnswerFieldKeepsSound(s: Session, f: Field, v: Value, world: World)
    requires Sound(s)
    ensures Sound(AnswerField(s, f, v, world).session) && SameBelow(s, AnswerField(s, f, v, world).session)
  {
    if Answer(s, f, v).Done? {
      AnswerKeepsSound(s, f, v, Answer(s, f, v).session);
      InspectKeepsSound(Answer(s, f, v).session, world);
    }
  }

  // ---- a child's questions ----

  lemma ChildAsksNoLink(w: Writer)
    requires Child(w) && NextField(w).Some?
    ensures NextField(w).value.rule.input != Link && !Counterparty(NextField(w).value.name)
  {
    var i := NextIsThere(w);
    if w.contract.entity == ContactEntity { NotInContact(i); } else { NotInOrganization(i); }
  }

  lemma ChildSkipsTheMarks(s: Session, v: Value, world: World)
    requires Sound(s) && |s| == 2 && NextField(Active(s)).Some?
    ensures AnswerChoice(s, NextField(Active(s)).value, v, world) == Routed(AnswerField(s, NextField(Active(s)).value.name, v, world))
  {
    ChildAsksNoLink(Active(s));
  }

  /** While a child is being completed no answer in people's words takes a route that rebuilds the session: each goes
      to the child's next field as it is, or as the record id it is, and the parent stays as it was. */
  lemma ChildAnswersGoStraight(s: Session, v: Value, world: World)
    requires Sound(s) && |s| == 2
    ensures var next := NextField(Active(s));
      AnswerHuman(s, v, world) ==
        if next == None then Routed(Inspect(s, world))
        else if v.Text? && LooseRecordId(Strip(v.s)) then Routed(AnswerField(s, next.value.name, Word(Strip(v.s)), world))
        else Routed(AnswerField(s, next.value.name, v, world))
    ensures AnswerHuman(s, v, world).Routed?
    ensures Sound(AnswerHuman(s, v, world).route.session) && SameBelow(s, AnswerHuman(s, v, world).route.session)
  {
    var next := NextField(Active(s));
    if next == None {
      InspectKeepsSound(s, world);
    } else {
      ChildSkipsTheMarks(s, v, world);
      AnswerFieldKeepsSound(s, next.value.name, v, world);
      if v.Text? { AnswerFieldKeepsSound(s, next.value.name, Word(Strip(v.s)), world); }
    }
  }

  // ---- a parent's answers ----

  lemma RebuiltIsSound(w: Writer)
    requires Root(w)
    ensures Sound(Rebuilt(w))
  {
  }

  lemma NestedIsDone(w: Writer, child: EntityContract, f: Field, current: Values)
    requires w.contract == DealContract() && Counterparty(f)
    ensures BeginNested(Rebuilt(w), child, f, current, map[])
         == Done([Frame(w, None), Frame(Writer(child, current, map[], w.identity), Some(f))])
  {
    DealHasCounterparties(f);
    assert Rebuilt(w) + [Frame(Writer(child, current, map[], w.identity), Some(f))]
        == [Frame(w, None), Frame(Writer(child, current, map[], w.identity), Some(f))];
  }

  lemma FreshChild(child: Entity, current: Values, identity: ContextValues)
    requires NameField(child).Some? && PendingLinkChoice !in current && PendingNestedCreate !in current
    ensures Child(Writer(ContractOf(child), current, map[], identity))
  {
    EntityOfContract(child);
  }

  lemma WaitingIsDeal(w: Writer)
    requires Waiting(w)
    ensures w.contract == DealContract()
  {
  }

  lemma PairIsSound(s: Session)
    requires |s| == 2 && Waiting(s[0].writer) && Child(s[1].writer)
    requires s[1].returnField.Some? && Counterparty(s[1].returnField.value)
    ensures Sound(s)
  {
  }

  lemma NestedIsSound(w: Writer, child: Entity, f: Field, current: Values) returns (nested: Session)
    requires Waiting(w) && Counterparty(f) && NameField(child).Some?
    requires PendingLinkChoice !in current && PendingNestedCreate !in current && PendingApprovalNonce !in current
    ensures BeginNested(Rebuilt(w), ContractOf(child), f, current, map[]) == Done(nested)
    ensures Sound(nested) && |nested| == 2 && NonceOf(nested) == Nothing
  {
    var begun := Writer(ContractOf(child), current, map[], w.identity);
    WaitingIsDeal(w);
    NestedIsDone(w, begun.contract, f, current);
    FreshChild(child, current, w.identity);
    nested := [Frame(w, None), Frame(begun, Some(f))];
    PairIsSound(nested);
  }

  lemma EntityOfContract(e: Entity)
    ensures ContractOf(e).entity == e
  {
  }

  lemma DealHasCounterparties(f: Field)
    requires Counterparty(f)
    ensures FindField(DealContract().fields, f).Some?
    ensures FindField(DealContract().fields, f).value.rule.input == Link && FindField(DealContract().fields, f).value.rule.manual
  {
    DealWellFormed();
    var i := DealCounterpartyAt(f);
    FindIsThere(DealContract().fields, i);
  }

  function NonceOf(s: Session): Value { Get(Active(s).current, PendingApprovalNonce) }

  /** What a question to a root entity may lead to: a sound session, whose child if it has one carries no nonce but the
      one just minted. */
  ghost predicate Fine(r: Routed, world: World) {
    r.Routed? && Sound(r.route.session)
    && (|r.route.session| == 2 ==> NonceOf(r.route.session) in {Nothing, Word(world.nonce)})
  }

  lemma OfferMarkIsFine(w: Writer, f: Field, v: Value, question: string)
    requires Root(w) && CreatableTarget(f, w).Some?
    ensures Sound(Rebuilt(Put(w, PendingNestedCreate, Offer(f, CreatableTarget(f, w).value, Reply(v), question))))
  {
    CreatableIsNamed(f, w);
    OfferIsHonest(w, Offer(f, CreatableTarget(f, w).value, Reply(v), question));
  }

  lemma OfferIsHonest(w: Writer, offer: Value)
    requires Root(w) && offer.Offer? && Counterparty(offer.offered) && NameField(offer.nested).Some?
    ensures Sound(Rebuilt(Put(w, PendingNestedCreate, offer)))
  {
    var w1 := Put(w, PendingNestedCreate, offer);
    assert Get(w1.current, PendingNestedCreate) == offer;
    RebuiltIsSound(w1);
  }

  lemma FieldAnswerIsFine(s: Session, f: Field, v: Value, world: World)
    requires Sound(s) && |s| == 1
    ensures Fine(Routed(AnswerField(s, f, v, world)), world)
  {
    AnswerFieldKeepsSound(s, f, v, world);
  }

  lemma StayingIsFine(s: Session, verdict: Verdict, world: World)
    requires Sound(s) && |s| == 1
    ensures Fine(Routed(Route(verdict, s)), world)
  {
  }

  lemma CreatableIsNamed(f: Field, w: Writer)
    requires CreatableTarget(f, w).Some?
    ensures Counterparty(f) && NameField(CreatableTarget(f, w).value).Some?
  {
  }

  lemma ChoiceMarkIsFine(w: Writer, f: Field, tokens: map<string, string>)
    requires Root(w)
    ensures Sound(Rebuilt(Put(w, PendingLinkChoice, Tokens(f, tokens))))
  {
    var w1 := Put(w, PendingLinkChoice, Tokens(f, tokens));
    assert HonestOffer(w1.current);
    RebuiltIsSound(w1);
  }

  lemma NameAnswerIsFine(s: Session, c: FieldContract, v: Value, world: World)
    requires Sound(s) && |s| == 1
    ensures Fine(AnswerName(s, c, v, world), world)
  {
    var target := CreatableTarget(c.name, Active(s));
    StayingIsFine(s, Block, world);
    StayingIsFine(s, Clarify(c.name), world);
    match world.resolution {
      case One(id) => FieldAnswerIsFine(s, TargetField(c.name, target == Some(OrganizationEntity)), Word(id), world);
      case NoneButCreate(question) => if target.Some? { OfferMarkIsFine(Active(s), c.name, v, question); }
      case Several(tokens) => ChoiceMarkIsFine(Active(s), c.name, tokens);
      case NotFound =>
    }
  }

  lemma KindMarkIsFine(w: Writer, kind: string)
    requires Root(w)
    ensures Sound(Rebuilt(Put(w, CounterpartyKind, Word(kind))))
  {
    var w1 := Put(w, CounterpartyKind, Word(kind));
    assert HonestOffer(w1.current);
    RebuiltIsSound(w1);
  }

  lemma KindUnfolds(s: Session, c: FieldContract, v: Value, world: World)
    ensures AnswerKind(s, c, v, world) in {
      Routed(Route(Clarify(c.name), Rebuilt(Put(Active(s), CounterpartyKind, Word("organization"))))),
      Routed(Route(Clarify(c.name), Rebuilt(Put(Active(s), CounterpartyKind, Word("contact"))))),
      Routed(AnswerField(s, c.name, v, world)),
      Routed(Route(Block, s)),
      AnswerName(s, c, v, world)}
  {
  }

  lemma KindAnswerIsFine(s: Session, c: FieldContract, v: Value, world: World)
    requires Sound(s) && |s| == 1
    ensures Fine(AnswerKind(s, c, v, world), world)
  {
    KindUnfolds(s, c, v, world);
    NameAnswerIsFine(s, c, v, world);
    FieldAnswerIsFine(s, c.name, v, world);
    StayingIsFine(s, Block, world);
    KindMarkIsFine(Active(s), "organization");
    KindMarkIsFine(Active(s), "contact");
  }

  /** A question for a counterparty comes from a Deal that has none. */
  ghost predicate AskedRight(w: Writer, c: FieldContract) { Counterparty(c.name) ==> Waiting(w) }

  lemma NextIsAskedRight(w: Writer)
    requires Root(w) && NextField(w).Some?
    ensures AskedRight(w, NextField(w).value)
  {
    if Counterparty(NextField(w).value.name) { CounterpartyIsAskedOfDeals(w, w.contract.entity); }
  }

  lemma ClearedValues(w: Writer, mark: Field)
    requires mark == PendingLinkChoice || mark == PendingNestedCreate
    ensures var current := Cleared(w, mark).current;
      && Get(current, PendingNestedCreate) in {Nothing, Get(w.current, PendingNestedCreate)}
      && Get(current, CounterpartyContact) == Get(w.current, CounterpartyContact)
      && Get(current, CounterpartyOrganization) == Get(w.current, CounterpartyOrganization)
  {
  }

  lemma ClearedStays(w: Writer, c: FieldContract, mark: Field)
    requires Root(w) && AskedRight(w, c) && (mark == PendingLinkChoice || mark == PendingNestedCreate)
    ensures Root(Cleared(w, mark)) && AskedRight(Cleared(w, mark), c)
    ensures Sound(Rebuilt(Cleared(w, mark)))
  {
    ClearedValues(w, mark);
    RebuiltIsSound(Cleared(w, mark));
  }

  /** What a confirmed offer begins: the entity offered, with the name that was looked for. */
  function BegunWith(offer: Value): Values
    requires offer.Offer? && NameField(offer.nested).Some?
  {
    map[NameField(offer.nested).value := Word(offer.candidate)]
  }

  lemma ConfirmedOfferBegins(s: Session, c: FieldContract, v: Value, world: World, nested: Session)
    requires var offer := Get(Active(s).current, PendingNestedCreate);
      && OfferedOn(offer, c.name) && Reply(v) in ConfirmWords() && NameField(offer.nested).Some?
      && BeginNested(Rebuilt(Cleared(Active(s), PendingNestedCreate)), ContractOf(offer.nested),
                     TargetField(c.name, offer.nested == OrganizationEntity), BegunWith(offer), map[]) == Done(nested)
    ensures AnswerOffer(s, c, v, world) == Routed(Inspect(nested, world))
  {
  }

  lemma BegunCarriesNoMark(offer: Value)
    requires offer.Offer? && NameField(offer.nested).Some?
    ensures var current := BegunWith(offer);
      PendingLinkChoice !in current && PendingNestedCreate !in current && PendingApprovalNonce !in current
  {
  }

  lemma InspectedChildIsFine(nested: Session, world: World)
    requires Sound(nested) && |nested| == 2 && NonceOf(nested) == Nothing
    ensures Fine(Routed(Inspect(nested, world)), world)
  {
    InspectKeepsSound(nested, world);
    InspectOnlyMarks(nested, world);
  }

  lemma ConfirmedOfferIsFine(s: Session, c: FieldContract, v: Value, world: World)
    requires Sound(s) && |s| == 1 && AskedRight(Active(s), c)
    requires OfferedOn(Get(Active(s).current, PendingNestedCreate), c.name) && Reply(v) in ConfirmWords()
    ensures Fine(AnswerOffer(s, c, v, world), world)
  {
    var offer := Get(Active(s).current, PendingNestedCreate);
    ClearedStays(Active(s), c, PendingNestedCreate);
    BegunCarriesNoMark(offer);
    var f := TargetField(c.name, offer.nested == OrganizationEntity);
    var nested := NestedIsSound(Cleared(Active(s), PendingNestedCreate), offer.nested, f, BegunWith(offer));
    ConfirmedOfferBegins(s, c, v, world, nested);
    InspectedChildIsFine(nested, world);
  }

  lemma UnconfirmedOfferUnfolds(s: Session, c: FieldContract, v: Value, world: World)
    requires OfferedOn(Get(Active(s).current, PendingNestedCreate), c.name) && Reply(v) !in ConfirmWords()
    ensures AnswerOffer(s, c, v, world) ==
      Routed(Route(Clarify(c.name), if Reply(v) in DeclineWords() then Rebuilt(Cleared(Active(s), PendingNestedCreate)) else s))
  {
  }

  lemma OfferAnswerIsFine(s: Session, c: FieldContract, v: Value, world: World)
    requires Sound(s) && |s| == 1 && AskedRight(Active(s), c)
    ensures Fine(AnswerOffer(s, c, v, world), world)
  {
    if !OfferedOn(Get(Active(s).current, PendingNestedCreate), c.name) {
      KindAnswerIsFine(s, c, v, world);
    } else if Reply(v) in ConfirmWords() {
      ConfirmedOfferIsFine(s, c, v, world);
    } else {
      UnconfirmedOfferUnfolds(s, c, v, world);
      ClearedStays(Active(s), c, PendingNestedCreate);
    }
  }

  lemma PickedUnfolds(w: Writer, c: FieldContract, v: Value, world: World)
    requires PendingOn(Get(w.current, PendingLinkChoice), c.name)
    ensures var tokens := Get(w.current, PendingLinkChoice).tokens;
      var cleared := Cleared(w, PendingLinkChoice);
      AnswerChoice(Rebuilt(w), c, v, world) ==
        if Reply(v) in tokens && tokens[Reply(v)] != ""
        then Routed(AnswerField(Rebuilt(cleared), TargetField(c.name, IsOrganizationKind(Get(cleared.current, CounterpartyKind))),
                                Word(tokens[Reply(v)]), world))
        else AnswerOffer(Rebuilt(cleared), c, v, world)
  {
  }

  lemma PickedAnswerIsFine(w: Writer, c: FieldContract, v: Value, world: World)
    requires Root(w) && AskedRight(w, c) && PendingOn(Get(w.current, PendingLinkChoice), c.name)
    ensures Fine(AnswerChoice(Rebuilt(w), c, v, world), world)
  {
    var tokens := Get(w.current, PendingLinkChoice).tokens;
    var cleared := Cleared(w, PendingLinkChoice);
    PickedUnfolds(w, c, v, world);
    ClearedStays(w, c, PendingLinkChoice);
    OfferAnswerIsFine(Rebuilt(cleared), c, v, world);
    if Reply(v) in tokens {
      var f := TargetField(c.name, IsOrganizationKind(Get(cleared.current, CounterpartyKind)));
      FieldAnswerIsFine(Rebuilt(cleared), f, Word(tokens[Reply(v)]), world);
    }
  }

  lemma ChoiceAnswerIsFine(s: Session, c: FieldContract, v: Value, world: World)
    requires Sound(s) && |s| == 1 && AskedRight(Active(s), c)
    ensures Fine(AnswerChoice(s, c, v, world), world)
  {
    if PendingOn(Get(Active(s).current, PendingLinkChoice), c.name) {
      PickedAnswerIsFine(Active(s), c, v, world);
      assert AnswerChoice(s, c, v, world) == AnswerChoice(Rebuilt(Active(s)), c, v, world);
    } else {
      OfferAnswerIsFine(s, c, v, world);
    }
  }

  lemma RootAnswersAreFine(s: Session, v: Value, world: World)
    requires Sound(s) && |s| == 1
    ensures Fine(AnswerHuman(s, v, world), world)
  {
    if NextField(Active(s)) == None {
      InspectKeepsSound(s, world);
    } else {
      var c := NextField(Active(s)).value;
      NextIsAskedRight(Active(s));
      ChoiceAnswerIsFine(s, c, v, world);
      if v.Text? { AnswerFieldKeepsSound(s, c.name, Word(Strip(v.s)), world); }
    }
  }

  /** Whatever is answered, the session stays sound: one entity, or a Deal that still lacks its counterparty with one
      Contact or Organization under completion; a parent is never changed while its child is; and nothing is raised. */
  lemma AnswersKeepSound(s: Session, v: Value, world: World)
    requires Sound(s)
    ensures AnswerHuman(s, v, world).Routed?
    ensures var s1 := AnswerHuman(s, v, world).route.session;
      Sound(s1) && (|s| == 2 ==> SameBelow(s, s1))
  {
    if |s| == 1 { RootAnswersAreFine(s, v, world); } else { ChildAnswersGoStraight(s, v, world); }
  }
}
