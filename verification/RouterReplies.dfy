/** What each reply to the router does, with the words, the fields and the marks written out. */
module RouterReplies {
  import opened Prelude
  import opened Texts
  import opened CompletionEngine
  import opened CompletionAnswers
  import opened CompletionPayload
  import opened CommercialContracts
  import opened ContractLaws
  import opened CommercialChecks
  import opened CompletionSession
  import opened CompletionRouter
  import opened RouterLaws
  import opened RouterSafety

  // ---- a question, and a reply to it ----

  /** One entity is open and the router has asked for this field. */
  ghost predicate Asks(s: Session, f: Field) {
    Sound(s) && |s| == 1 && NextField(Active(s)).Some? && NextField(Active(s)).value.name == f
  }

  /** What was typed, without the blanks around it; a reply that is no text reads as nothing. */
  function Typed(v: Value): string { if v.Text? then Strip(v.s) else "" }

  /** The reply has the form of a record id. */
  predicate GivesId(v: Value) { v.Text? && LooseRecordId(Typed(v)) }

  /** The value the session has under a mark, or nothing. */
  function MarkOf(s: Session, mark: Field): Value { if mark in Active(s).current then Active(s).current[mark] else Nothing }

  /** No choice among records was put to the user for the field. */
  predicate NoChoice(s: Session, f: Field) { !(MarkOf(s, PendingLinkChoice).Tokens? && MarkOf(s, PendingLinkChoice).field == f) }

  /** No offer to create a record for the field stands. */
  predicate NoOffer(s: Session, f: Field) {
    !(MarkOf(s, PendingNestedCreate).Offer? && MarkOf(s, PendingNestedCreate).offered == f)
  }

  /** The open entity with other values, alone. */
  function With(s: Session, current: Values): Session { [Frame(Active(s).(current := current), None)] }

  lemma NotAnId(s: string)
    requires |s| <= 3 || s[0] != 'r'
    ensures !LooseRecordId(s)
  {
    if |s| > 3 { assert s[..3][0] != "rec"[0]; }
  }

  // ---- how a reply is read, step by step ----

  lemma ReplyIsChoice(s: Session, c: FieldContract, v: Value, world: World)
    requires NextField(Active(s)) == Some(c) && !GivesId(v)
    ensures AnswerHuman(s, v, world) == AnswerChoice(s, c, v, world)
  {
  }

  lemma ChoiceIsOffer(s: Session, c: FieldContract, v: Value, world: World)
    requires NoChoice(s, c.name)
    ensures AnswerChoice(s, c, v, world) == AnswerOffer(s, c, v, world)
  {
  }

  lemma OfferIsKind(s: Session, c: FieldContract, v: Value, world: World)
    requires NoOffer(s, c.name)
    ensures AnswerOffer(s, c, v, world) == AnswerKind(s, c, v, world)
  {
  }

  // ---- yes, no, or neither ----

  /** An offer to create the missing counterparty stands for the field asked. */
  ghost predicate Offered(s: Session, f: Field) { Asks(s, f) && NoChoice(s, f) && !NoOffer(s, f) }

  lemma OfferedIsDeal(s: Session, f: Field)
    requires Offered(s, f)
    ensures f == CounterpartyContact && Active(s).contract == DealContract() && Waiting(Active(s))
    ensures NameField(MarkOf(s, PendingNestedCreate).nested).Some?
  {
    NextIsAskedRight(Active(s));
    CounterpartyIsAskedOfDeals(Active(s), Active(s).contract.entity);
  }

  lemma OfferIsAnswered(s: Session, f: Field, v: Value, world: World)
    requires Offered(s, f) && !GivesId(v)
    ensures AnswerHuman(s, v, world) == AnswerOffer(s, NextField(Active(s)).value, v, world)
  {
    ReplyIsChoice(s, NextField(Active(s)).value, v, world);
    ChoiceIsOffer(s, NextField(Active(s)).value, v, world);
  }

  /** The child begun: its kind, the field it returns into, and the one value it starts with. */
  predicate BegunFrom(child: Frame, offer: Value, parent: Writer, nonce: string)
    requires offer.Offer?
  {
    && child.writer.contract == ContractOf(offer.nested)
    && child.returnField == Some(if offer.nested == OrganizationEntity then CounterpartyOrganization else CounterpartyContact)
    && child.writer.current - {PendingApprovalNonce}
         == map[(if offer.nested == OrganizationEntity then OrganizationName else Name) := Text(offer.candidate, None)]
    && (PendingApprovalNonce in child.writer.current ==> child.writer.current[PendingApprovalNonce] == Text(nonce, None))
    && child.writer.source == map[] && child.writer.identity == parent.identity
  }

  lemma MarkedChild(w: Writer, child: Frame, offer: Value, nonce: string)
    requires offer.Offer? && BegunFrom(child, offer, w, nonce) && PendingApprovalNonce !in child.writer.current
    ensures BegunFrom(child.(writer := Put(child.writer, PendingApprovalNonce, Word(nonce))), offer, w, nonce)
  {
    var marked := Put(child.writer, PendingApprovalNonce, Word(nonce));
    assert marked.current - {PendingApprovalNonce} == child.writer.current - {PendingApprovalNonce};
  }

  lemma ChildIsBegun(cleared: Writer, offer: Value, parent: Writer, f: Field, nonce: string)
    requires offer.Offer? && NameField(offer.nested).Some? && cleared.identity == parent.identity
    requires f == if offer.nested == OrganizationEntity then CounterpartyOrganization else CounterpartyContact
    ensures BegunFrom(Frame(Writer(ContractOf(offer.nested), BegunWith(offer), map[], cleared.identity), Some(f)),
                      offer, parent, nonce)
  {
    assert BegunWith(offer) - {PendingApprovalNonce} == BegunWith(offer);
  }

  lemma OfferBegins(s: Session, f: Field, v: Value, world: World)
    requires Offered(s, f) && Reply(v) in ConfirmWords() && !GivesId(v)
    ensures var offer := MarkOf(s, PendingNestedCreate);
      var r := AnswerHuman(s, v, world);
      && r.Routed? && |r.route.session| == 2
      && r.route.session[0] == Frame(Active(s).(current := Active(s).current - {PendingNestedCreate}), None)
      && BegunFrom(r.route.session[1], offer, Active(s), world.nonce)
  {
    OfferedIsDeal(s, f);
    OfferIsAnswered(s, f, v, world);
    var offer := MarkOf(s, PendingNestedCreate);
    var c := NextField(Active(s)).value;
    var cleared := Cleared(Active(s), PendingNestedCreate);
    var returnField := TargetField(c.name, offer.nested == OrganizationEntity);
    NestedIsDone(cleared, ContractOf(offer.nested), returnField, BegunWith(offer));
    var child := Frame(Writer(ContractOf(offer.nested), BegunWith(offer), map[], cleared.identity), Some(returnField));
    var nested := [Frame(cleared, None), child];
    ConfirmedOfferBegins(s, c, v, world, nested);
    EntityOfContract(offer.nested);
    InspectOnlyMarks(nested, world);
    ChildIsBegun(cleared, offer, Active(s), returnField, world.nonce);
    MarkedChild(Active(s), child, offer, world.nonce);
  }

  lemma YesWords(s: string)
    ensures s in ConfirmWords() <==> s in {"כן", "yes", "y", "אישור", "מאשר"}
    ensures s in {"כן", "yes", "y", "אישור", "מאשר"} ==> !LooseRecordId(s)
  {
    if s in {"כן", "yes", "y", "אישור", "מאשר"} { NotAnId(s); }
  }

  lemma NoWords(s: string)
    ensures s in DeclineWords() <==> s in {"לא", "no", "n", "ביטול", "בטל"}
    ensures s in {"לא", "no", "n", "ביטול", "בטל"} ==> !LooseRecordId(s)
    ensures s in {"לא", "no", "n", "ביטול", "בטל"} ==> s !in {"כן", "yes", "y", "אישור", "מאשר"}
  {
    if s in {"לא", "no", "n", "ביטול", "בטל"} { NotAnId(s); }
  }

  /** A yes begins the completion of the Organization or Contact offered, under the name that was looked for; the Deal
      waits below it without the offer. */
  lemma YesBegins(s: Session, f: Field, v: Value, world: World)
    requires Offered(s, f) && Typed(v) in {"כן", "yes", "y", "אישור", "מאשר"}
    ensures var offer := MarkOf(s, PendingNestedCreate);
      var r := AnswerHuman(s, v, world);
      && r.Routed? && |r.route.session| == 2
      && r.route.session[0] == Frame(Active(s).(current := Active(s).current - {PendingNestedCreate}), None)
      && BegunFrom(r.route.session[1], offer, Active(s), world.nonce)
  {
    YesWords(Typed(v));
    OfferBegins(s, f, v, world);
  }

  /** A no drops the offer, and the field is asked for again. */
  lemma NoDrops(s: Session, f: Field, v: Value, world: World)
    requires Offered(s, f) && Typed(v) in {"לא", "no", "n", "ביטול", "בטל"}
    ensures AnswerHuman(s, v, world) == Routed(Route(Clarify(f), With(s, Active(s).current - {PendingNestedCreate})))
  {
    NoWords(Typed(v));
    YesWords(Typed(v));
    OfferIsAnswered(s, f, v, world);
    UnconfirmedOfferUnfolds(s, NextField(Active(s)).value, v, world);
  }

  /** Any other reply that is no record id leaves the session as it was, with the same question. */
  lemma NeitherAsksAgain(s: Session, f: Field, v: Value, world: World)
    requires Offered(s, f) && !GivesId(v)
    requires Typed(v) !in {"כן", "yes", "y", "אישור", "מאשר"} && Typed(v) !in {"לא", "no", "n", "ביטול", "בטל"}
    ensures AnswerHuman(s, v, world) == Routed(Route(Clarify(f), s))
  {
    YesWords(Typed(v));
    NoWords(Typed(v));
    OfferIsAnswered(s, f, v, world);
    UnconfirmedOfferUnfolds(s, NextField(Active(s)).value, v, world);
  }

  // ---- a record id ----

  /** The open entity with other values, in the frame it had. */
  function Kept(s: Session, current: Values): Session { [s[0].(writer := Active(s).(current := current))] }

  predicate LinkField(w: Writer, f: Field) {
    var c := FindField(w.contract.fields, f);
    c.Some? && c.value.rule.input == Link && c.value.rule.manual
  }

  /** A record id put into a link field of the open entity. */
  lemma LinkIsPut(s: Session, f: Field, id: string, world: World)
    requires |s| == 1 && Standing(Active(s)) && Active(s).contract.entity != ChargeFromTermEntity
    requires LinkField(Active(s), f)
    ensures var r := AnswerField(s, f, Word(id), world);
      if LooseRecordId(id) then r.session == Kept(s, Active(s).current[f := Text(id, None)]) else r == Route(Block, s)
  {
    if LooseRecordId(id) {
      var s1 := Kept(s, Active(s).current[f := Text(id, None)]);
      assert Answer(s, f, Word(id)) == Done(s1);
      InspectOnlyMarks(s1, world);
    }
  }

  /** The router has asked for a record, of an entity with no Term to read. */
  ghost predicate AsksLink(s: Session, f: Field) {
    Asks(s, f) && NextField(Active(s)).value.rule.input == Link && Active(s).contract.entity != ChargeFromTermEntity
  }

  lemma AskedIsLinkField(s: Session, f: Field)
    requires AsksLink(s, f)
    ensures LinkField(Active(s), f) && (f == CounterpartyContact ==> LinkField(Active(s), CounterpartyOrganization))
  {
    var w := Active(s);
    EveryContractWellFormed(w.contract.entity, w.contract);
    var i := NextIsOpen(w);
    FindIsThere(w.contract.fields, i);
    if f == CounterpartyContact {
      CounterpartyIsAskedOfDeals(w, w.contract.entity);
      DealHasCounterparties(CounterpartyOrganization);
    }
  }

  /** A record id in reply to any question for a record is put there. */
  lemma IdIsPut(s: Session, f: Field, v: Value, world: World)
    requires AsksLink(s, f) && GivesId(v)
    ensures var r := AnswerHuman(s, v, world);
      r.Routed? && r.route.session == Kept(s, Active(s).current[f := Text(Typed(v), None)])
  {
    AskedIsLinkField(s, f);
    LinkIsPut(s, f, Typed(v), world);
  }

  // ---- a choice among records ----

  /** The field a counterparty goes to: an Organization has one of its own. */
  function Side(f: Field, organization: bool): Field {
    if f == CounterpartyContact && organization then CounterpartyOrganization else f
  }

  predicate SaidOrganization(s: Session) { MarkOf(s, CounterpartyKind).Text? && MarkOf(s, CounterpartyKind).s == "organization" }

  predicate SaidContact(s: Session) {
    CounterpartyKind !in Active(s).current || (MarkOf(s, CounterpartyKind).Text? && MarkOf(s, CounterpartyKind).s == "contact")
  }

  lemma SideIsTarget(s: Session, f: Field)
    ensures var cleared := Cleared(Active(s), PendingLinkChoice);
      && Rebuilt(cleared) == With(s, Active(s).current - {PendingLinkChoice})
      && TargetField(f, IsOrganizationKind(Get(cleared.current, CounterpartyKind))) == Side(f, SaidOrganization(s))
  {
  }

  lemma TokenIsTaken(s: Session, c: FieldContract, v: Value, world: World, cleared: Writer, id: string)
    requires !NoChoice(s, c.name) && Typed(v) in MarkOf(s, PendingLinkChoice).tokens
    requires id == MarkOf(s, PendingLinkChoice).tokens[Typed(v)] && id != "" && cleared == Cleared(Active(s), PendingLinkChoice)
    ensures AnswerChoice(s, c, v, world)
         == Routed(AnswerField(Rebuilt(cleared), TargetField(c.name, IsOrganizationKind(Get(cleared.current, CounterpartyKind))),
                               Word(id), world))
  {
  }

  lemma TokenUnfolds(s: Session, c: FieldContract, v: Value, world: World)
    requires !NoChoice(s, c.name) && Typed(v) in MarkOf(s, PendingLinkChoice).tokens
    requires MarkOf(s, PendingLinkChoice).tokens[Typed(v)] != ""
    ensures AnswerChoice(s, c, v, world)
         == Routed(AnswerField(With(s, Active(s).current - {PendingLinkChoice}), Side(c.name, SaidOrganization(s)),
                               Word(MarkOf(s, PendingLinkChoice).tokens[Typed(v)]), world))
  {
    TokenIsTaken(s, c, v, world, Cleared(Active(s), PendingLinkChoice), MarkOf(s, PendingLinkChoice).tokens[Typed(v)]);
    SideIsTarget(s, c.name);
  }

  /** The token of a record that was shown puts that record into the field, and the choice is used up. */
  lemma TokenPicks(s: Session, f: Field, v: Value, world: World)
    requires AsksLink(s, f) && !NoChoice(s, f) && !GivesId(v)
    requires Typed(v) in MarkOf(s, PendingLinkChoice).tokens
    requires LooseRecordId(MarkOf(s, PendingLinkChoice).tokens[Typed(v)])
    ensures var id := MarkOf(s, PendingLinkChoice).tokens[Typed(v)];
      var r := AnswerHuman(s, v, world);
      && r.Routed?
      && r.route.session
           == With(s, (Active(s).current - {PendingLinkChoice})[Side(f, SaidOrganization(s)) := Text(id, None)])
  {
    var id := MarkOf(s, PendingLinkChoice).tokens[Typed(v)];
    AskedIsLinkField(s, f);
    ReplyIsChoice(s, NextField(Active(s)).value, v, world);
    TokenUnfolds(s, NextField(Active(s)).value, v, world);
    PickIsPut(Active(s), Side(f, SaidOrganization(s)), id, world);
  }

  lemma PickIsPut(w: Writer, f: Field, id: string, world: World)
    requires Standing(w) && w.contract.entity != ChargeFromTermEntity && LinkField(w, f) && LooseRecordId(id)
    ensures var cleared := w.(current := w.current - {PendingLinkChoice});
      AnswerField([Frame(cleared, None)], f, Word(id), world).session
        == [Frame(w.(current := (w.current - {PendingLinkChoice})[f := Text(id, None)]), None)]
  {
    LinkIsPut([Frame(w.(current := w.current - {PendingLinkChoice}), None)], f, id, world);
  }

  lemma OtherReplyUnfolds(s: Session, c: FieldContract, v: Value, world: World)
    requires !NoChoice(s, c.name)
    requires Typed(v) !in MarkOf(s, PendingLinkChoice).tokens || MarkOf(s, PendingLinkChoice).tokens[Typed(v)] == ""
    ensures AnswerChoice(s, c, v, world) == AnswerOffer(With(s, Active(s).current - {PendingLinkChoice}), c, v, world)
  {
  }

  /** Any other reply uses the choice up as well, and is read as if nothing had been shown. */
  lemma OtherReplyDropsTheChoice(s: Session, f: Field, v: Value, world: World)
    requires Asks(s, f) && !NoChoice(s, f) && !GivesId(v)
    requires Typed(v) !in MarkOf(s, PendingLinkChoice).tokens || MarkOf(s, PendingLinkChoice).tokens[Typed(v)] == ""
    ensures AnswerHuman(s, v, world)
         == AnswerOffer(With(s, Active(s).current - {PendingLinkChoice}), NextField(Active(s)).value, v, world)
  {
    ReplyIsChoice(s, NextField(Active(s)).value, v, world);
    OtherReplyUnfolds(s, NextField(Active(s)).value, v, world);
  }

  // ---- who the counterparty is ----

  /** The same letters, whether capitals or small. */
  predicate Spelt(s: string, word: string) {
    |s| == |word| && forall i :: 0 <= i < |s| ==> s[i] == word[i] || ('A' <= s[i] <= 'Z' && s[i] as int + 32 == word[i] as int)
  }

  predicate Small(word: string) { forall i :: 0 <= i < |word| ==> !('A' <= word[i] <= 'Z') }

  lemma FoldedIsSpelt(s: string, word: string)
    requires Small(word)
    ensures Folded(s) == word <==> Spelt(s, word)
  {
    if Spelt(s, word) {
      assert forall i :: 0 <= i < |s| ==> Folded(s)[i] == word[i];
    }
    if Folded(s) == word {
      forall i | 0 <= i < |s| ensures s[i] == word[i] || ('A' <= s[i] <= 'Z' && s[i] as int + 32 == word[i] as int) {
        assert Folded(s)[i] == word[i];
      }
    }
  }

  predicate MeansOrganization(s: string) { s == "ארגון" || Spelt(s, "organization") || Spelt(s, "company") }

  predicate MeansContact(s: string) { s == "איש קשר" || Spelt(s, "contact") || Spelt(s, "person") }

  lemma HebrewIsFolded(s: string, word: string)
    requires forall i :: 0 <= i < |word| ==> word[i] > 'z' || word[i] == ' '
    ensures Folded(s) == word <==> s == word
  {
    if Folded(s) == word {
      forall i | 0 <= i < |s| ensures s[i] == word[i] { assert Folded(s)[i] == word[i]; }
    }
  }

  lemma KindWords(s: string)
    ensures Folded(s) in OrganizationWords() <==> MeansOrganization(s)
    ensures Folded(s) in ContactWords() <==> MeansContact(s)
  {
    HebrewIsFolded(s, "ארגון");
    HebrewIsFolded(s, "איש קשר");
    FoldedIsSpelt(s, "organization");
    FoldedIsSpelt(s, "company");
    FoldedIsSpelt(s, "contact");
    FoldedIsSpelt(s, "person");
  }

  /** Nothing stands between the question and the reply. */
  ghost predicate Plainly(s: Session, f: Field, v: Value) { Asks(s, f) && NoChoice(s, f) && NoOffer(s, f) && !GivesId(v) }

  lemma PlainReply(s: Session, f: Field, v: Value, world: World)
    requires Plainly(s, f, v)
    ensures AnswerHuman(s, v, world) == AnswerKind(s, NextField(Active(s)).value, v, world)
  {
    ReplyIsChoice(s, NextField(Active(s)).value, v, world);
    ChoiceIsOffer(s, NextField(Active(s)).value, v, world);
    OfferIsKind(s, NextField(Active(s)).value, v, world);
  }

  lemma KindIsRead(s: Session, c: FieldContract, v: Value, world: World)
    ensures AnswerKind(s, c, v, world) ==
      if c.name == CounterpartyContact && MeansOrganization(Typed(v)) then
        Routed(Route(Clarify(c.name), With(s, Active(s).current[CounterpartyKind := Text("organization", None)])))
      else if c.name == CounterpartyContact && MeansContact(Typed(v)) then
        Routed(Route(Clarify(c.name), With(s, Active(s).current[CounterpartyKind := Text("contact", None)])))
      else if c.rule.input != Link then Routed(AnswerField(s, c.name, v, world))
      else if !world.lookup then Routed(Route(Block, s))
      else AnswerName(s, c, v, world)
  {
    KindWords(Typed(v));
  }

  /** Asked for its counterparty, a Deal notes whether that is an organization or a person, and asks again. */
  lemma KindIsNoted(s: Session, v: Value, world: World)
    requires Plainly(s, CounterpartyContact, v) && (MeansOrganization(Typed(v)) || MeansContact(Typed(v)))
    ensures AnswerHuman(s, v, world)
         == Routed(Route(Clarify(CounterpartyContact),
                         With(s, Active(s).current[CounterpartyKind :=
                           Text(if MeansOrganization(Typed(v)) then "organization" else "contact", None)])))
  {
    PlainReply(s, CounterpartyContact, v, world);
    KindIsRead(s, NextField(Active(s)).value, v, world);
  }

  // ---- a name ----

  /** A name for a record, where names can be looked up. */
  ghost predicate Named(s: Session, f: Field, v: Value, world: World) {
    && Plainly(s, f, v) && AsksLink(s, f) && world.lookup
    && (f == CounterpartyContact ==> !MeansOrganization(Typed(v)) && !MeansContact(Typed(v)))
  }

  lemma NameIsLookedUp(s: Session, f: Field, v: Value, world: World)
    requires Named(s, f, v, world)
    ensures AnswerHuman(s, v, world) == AnswerName(s, NextField(Active(s)).value, v, world)
  {
    PlainReply(s, f, v, world);
    KindIsRead(s, NextField(Active(s)).value, v, world);
  }

  /** What may be created for the field when nothing of the name is found: a counterparty of the kind said, and a person
      when none was. */
  function Creatable(s: Session, f: Field): Option<Entity> {
    if f == CounterpartyContact && SaidContact(s) then Some(ContactEntity)
    else if f == CounterpartyOrganization || (f == CounterpartyContact && SaidOrganization(s)) then Some(OrganizationEntity)
    else None
  }

  lemma NameUnfolds(s: Session, c: FieldContract, v: Value, world: World)
    ensures AnswerName(s, c, v, world) ==
      match world.resolution
      case One(id) => Routed(AnswerField(s, Side(c.name, SaidOrganization(s)), Word(id), world))
      case NoneButCreate(question) =>
        (match Creatable(s, c.name)
         case None => Routed(Route(Block, s))
         case Some(e) =>
           Routed(Route(Clarify(c.name),
                        With(s, Active(s).current[PendingNestedCreate := Offer(c.name, e, Typed(v), question)]))))
      case Several(tokens) =>
        Routed(Route(Clarify(c.name),
                     if tokens == map[] then s else With(s, Active(s).current[PendingLinkChoice := Tokens(c.name, tokens)])))
      case NotFound => Routed(Route(Block, s))
  {
  }

  lemma FoundIsPut(s: Session, f: Field, v: Value, id: string, world: World)
    requires Named(s, f, v, world)
    ensures var r := AnswerField(s, Side(f, SaidOrganization(s)), Word(id), world);
      if LooseRecordId(id) then r.session == Kept(s, Active(s).current[Side(f, SaidOrganization(s)) := Text(id, None)])
      else r == Route(Block, s)
  {
    AskedIsLinkField(s, f);
    LinkIsPut(s, Side(f, SaidOrganization(s)), id, world);
  }

  /** A name with one record puts that record into the field; with several, they are shown to choose from; with none, an
      offer to create a counterparty of that name is made, or nothing is done. */
  lemma NameIsResolved(s: Session, f: Field, v: Value, world: World)
    requires Named(s, f, v, world)
    ensures var r := AnswerHuman(s, v, world);
      r.Routed? &&
      match world.resolution
      case One(id) =>
        if LooseRecordId(id)
        then r.route.session == Kept(s, Active(s).current[Side(f, SaidOrganization(s)) := Text(id, None)])
        else r.route == Route(Block, s)
      case NoneButCreate(question) =>
        (match Creatable(s, f)
         case None => r.route == Route(Block, s)
         case Some(e) =>
           r.route == Route(Clarify(f), With(s, Active(s).current[PendingNestedCreate := Offer(f, e, Typed(v), question)])))
      case Several(tokens) =>
        r.route == Route(Clarify(f),
                         if tokens == map[] then s else With(s, Active(s).current[PendingLinkChoice := Tokens(f, tokens)]))
      case NotFound => r.route == Route(Block, s)
  {
    NameIsLookedUp(s, f, v, world);
    NameUnfolds(s, NextField(Active(s)).value, v, world);
    if world.resolution.One? { FoundIsPut(s, f, v, world.resolution.id, world); }
  }

  // ---- the Term a Charge is created from ----

  predicate TextUnder(w: Writer, f: Field, s: string) {
    if f in w.current && w.current[f].Text? then s == Strip(w.current[f].s) else s == ""
  }

  /** A Charge from a Term that names its Term and does not know the Term's calculation type yet. */
  predicate NamesTerm(w: Writer, id: string) {
    && w.contract.entity == ChargeFromTermEntity && id != "" && TextUnder(w, BillingTerm, id)
    && (TermCalcType in w.current ==> w.current[TermCalcType] == Nothing)
  }

  /** It can go on with a Term that has been read and is of its Deal, if it has one. */
  predicate OfDeal(w: Writer, id: string, deal: string, term: TermRead) {
    RecordId(id) && term.TermFound? && (deal == "" || deal in term.deals)
  }

  lemma TermContextUnfolds(s: Session, id: string, deal: string, term: TermRead)
    requires NamesTerm(Active(s), id) && TextUnder(Active(s), Deal, deal)
    ensures TermContext(s, term) ==
      if OfDeal(Active(s), id, deal, term)
      then Some(WithTop(s, Active(s).(current := Active(s).current[TermCalcType := Text(term.calcType, None)])))
      else None
  {
  }

  lemma InspectContext(s: Session, world: World)
    ensures TermContext(s, world.term) == None ==> Inspect(s, world) == Route(Block, s)
    ensures TermContext(s, world.term).Some? && |s| == 1 ==> Inspect(s, world).session == TermContext(s, world.term).value
  {
    InspectUnfolds(s, world);
  }

  /** Once its Term is named the calculation type is read into the Charge's values, and the Charge is stopped exactly
      when the Term is no record id, cannot be read, or is of other Deals. */
  lemma TermIsRead(s: Session, id: string, deal: string, world: World)
    requires |s| == 1 && NamesTerm(Active(s), id) && TextUnder(Active(s), Deal, deal)
    ensures if OfDeal(Active(s), id, deal, world.term)
      then Inspect(s, world).session
             == [s[0].(writer := Active(s).(current := Active(s).current[TermCalcType := Text(world.term.calcType, None)]))]
      else Inspect(s, world) == Route(Block, s)
  {
    TermContextUnfolds(s, id, deal, world.term);
    InspectContext(s, world);
  }

  // ---- what is handed to the queue ----

  /** The call names the entity and its payload; a child's call carries the field it returns into and the very nonce its
      parked session is marked with, and a root's carries none. */
  lemma QueuedCallNames(s: Session, world: World)
    requires Inspect(s, world).verdict.Tool?
    ensures var (call, end) := (Inspect(s, world).verdict.call, Inspect(s, world).session);
      && |end| == |s|
      && call.tool == Active(end).contract.entity
      && CompletePayload(Active(end)) == Some(call.payload)
      && (|s| == 1 ==> call.hint == None)
      && (|s| > 1 ==>
            && call.hint == Some(Hint(Active(end).contract.entity, end[|end| - 1].returnField, world.nonce))
            && MarkOf(end, PendingApprovalNonce) == Text(world.nonce, None))
  {
  }
}
